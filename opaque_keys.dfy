/**
 * Opaque identifiers of courses and of the blocks inside them. Their textual
 * rendering is not modelled: keys are compared as values.
 */
module OpaqueKeys {

  /** A course run, identified by its organisation, course number and run. */
  datatype CourseKey = CourseKey(org: string, course: string, run: string)

  /** The usage key of one block: the course it belongs to, its block type and its id. */
  datatype UsageKey = UsageKey(courseKey: CourseKey, blockType: string, blockId: string)

  /**
   * A key that a role or a masquerade setting can be scoped to: a course, or a
   * single block when a block key is passed where a course key is expected.
   */
  datatype ContextKey = CourseContext(course: CourseKey) | BlockContext(usage: UsageKey)
  {
    /** The organisation part of the key, as `key.org` reads it. */
    function Org(): string {
      match this
      case CourseContext(c) => c.org
      case BlockContext(u) => u.courseKey.org
    }
  }
}
