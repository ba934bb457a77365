/**
 * The milestones transformer. For one user it removes from the course tree
 * every special-exam subsection that the user's exam attempt keeps closed and
 * every block whose "requires" milestones the user has not fulfilled, unless
 * the user has staff access. Everything the transformer asks of the rest of
 * the platform (feature settings, the proctoring service, the milestones
 * store, the role tables, masquerade and preview state) is an explicit
 * `Environment`.
 */
module Milestones {
  import opened Wrappers
  import opened OpaqueKeys
  import opened BlockStructure

  const ProctoredEnabledField := "is_proctored_enabled"
  const PracticeExamField := "is_practice_exam"
  const SequentialType := "sequential"
  const RequiresRelationship := "requires"

  /** The XBlock fields this transformer asks the collect phase for. */
  const MilestonesFields: set<string> := {ProctoredEnabledField, PracticeExamField}

  /** A platform user, with the flags the staff check reads. */
  datatype User = User(id: nat, isAuthenticated: bool, isStaff: bool)

  /** Per-request information: the user the course is filtered for, if any. */
  datatype UsageInfo = UsageInfo(user: Option<User>)

  /** The statuses an exam attempt can have in the proctoring service. */
  datatype AttemptStatus =
    | Eligible | Created | DownloadSoftwareClicked | ReadyToStart | Started | ReadyToSubmit
    | Declined | TimedOut | Submitted | SecondReviewRequired | Verified | Rejected | Error | Expired

  /** What the proctoring service reports about a user's attempt at an exam. */
  datatype AttemptSummary = AttemptSummary(status: AttemptStatus)

  /** A milestone record of the milestones store, kept opaque. */
  datatype Milestone = Milestone(id: nat)

  /** A query to the milestones store: content milestones of a block in a course, by relationship, for a user. */
  datatype MilestoneQuery = MilestoneQuery(courseId: CourseKey, contentId: UsageKey, relationship: string, userId: nat)

  datatype RoleName = StaffRole | InstructorRole

  /** A row of the access-role tables: a role held in a course (or whatever key it was granted for) or in an organisation. */
  datatype RoleAssignment =
    | CourseRole(userId: nat, role: RoleName, courseId: ContextKey)
    | OrgRole(userId: nat, role: RoleName, org: string)

  /**
   * The answers of the services the transformer consults:
   * the ENABLE_SPECIAL_EXAMS feature flag; attempt summaries by (user id,
   * course, block), a missing entry meaning no summary; content milestones by
   * query, a missing entry meaning none; the role tables; whether the request
   * is in preview mode; and the keys for which the user is masquerading as a
   * student.
   */
  datatype Environment = Environment(
    specialExamsEnabled: bool,
    attemptSummaries: map<(nat, CourseKey, UsageKey), AttemptSummary>,
    contentMilestones: map<MilestoneQuery, seq<Milestone>>,
    roles: set<RoleAssignment>,
    inPreviewMode: bool,
    masqueradingAsStudent: set<ContextKey>)

  /** Evaluating a block for a request that carries no user fails when the user's id is read. */
  datatype GateError = UserMissing

  // ---------------------------------------------------------------------
  // The services, read through the environment
  // ---------------------------------------------------------------------

  /** The proctoring service's attempt summary for a user and an exam; no attempt means no summary. */
  function AttemptStatusSummary(env: Environment, userId: nat, courseId: CourseKey, contentId: UsageKey): Option<AttemptSummary>
  {
    if (userId, courseId, contentId) in env.attemptSummaries then Some(env.attemptSummaries[(userId, courseId, contentId)]) else None
  }

  /** The milestones store's answer to a query; a query it holds nothing for has no milestones. */
  function CourseContentMilestones(env: Environment, query: MilestoneQuery): seq<Milestone>
  {
    if query in env.contentMilestones then env.contentMilestones[query] else []
  }

  /** The query the transformer makes for a block: its unfulfilled "requires" milestones for the user. */
  function RequiresQuery(key: UsageKey, userId: nat): MilestoneQuery
  {
    MilestoneQuery(key.courseKey, key, RequiresRelationship, userId)
  }

  /** Global staff membership is the user's own staff flag, whatever the course. */
  predicate GlobalStaffHasUser(user: User)
  {
    user.isStaff
  }

  /** Course staff for a key: a staff row for the user keyed by exactly that key. */
  predicate CourseStaffHasUser(env: Environment, courseId: ContextKey, user: User)
  {
    CourseRole(user.id, StaffRole, courseId) in env.roles
  }

  /** Organisation staff: a staff row for the user naming exactly that organisation. */
  predicate OrgStaffHasUser(env: Environment, org: string, user: User)
  {
    OrgRole(user.id, StaffRole, org) in env.roles
  }

  // ---------------------------------------------------------------------
  // What the rules decide, stated on values
  // ---------------------------------------------------------------------

  /** A subsection configured as a proctored or a practice exam, as its collected fields say. */
  predicate IsSpecialExamBlock(key: UsageKey, collected: map<UsageKey, map<string, bool>>)
  {
    key.blockType == SequentialType
    && (GetXBlockField(collected, key, ProctoredEnabledField) || GetXBlockField(collected, key, PracticeExamField))
  }

  /** Special exams are switched on and the user has an attempt at the exam that was not declined. */
  predicate AttemptKeepsExamClosed(env: Environment, userId: nat, key: UsageKey)
  {
    env.specialExamsEnabled
    && match AttemptStatusSummary(env, userId, key.courseKey, key)
       case None => false
       case Some(summary) => summary.status != Declined
  }

  /** The user holds a staff role in the given scope (or is global staff). */
  predicate HoldsStaffRole(env: Environment, courseId: ContextKey, user: User)
  {
    GlobalStaffHasUser(user) || CourseStaffHasUser(env, courseId, user) || OrgStaffHasUser(env, courseId.Org(), user)
  }

  /**
   * The removal decision for a block and a present user: the user has no
   * staff access for the block's key, and the block is either a special exam
   * that the user's attempt keeps closed or has pending "requires" milestones.
   */
  predicate Gated(key: UsageKey, user: User, collected: map<UsageKey, map<string, bool>>, env: Environment)
  {
    !HasStaffAccessToCourse(BlockContext(key), Some(user), env)
    && ((IsSpecialExamBlock(key, collected) && AttemptKeepsExamClosed(env, user.id, key))
        || CourseContentMilestones(env, RequiresQuery(key, user.id)) != [])
  }

  // ---------------------------------------------------------------------
  // The transformer
  // ---------------------------------------------------------------------

  /** The collect phase: asks for the two exam flags of every block. */
  method Collect(blockStructure: BlockStructureCollectedData)
    modifies blockStructure
    ensures blockStructure.requestedFields == old(blockStructure.requestedFields) + MilestonesFields
  {
    blockStructure.RequestXBlockFields(ProctoredEnabledField);
    blockStructure.RequestXBlockFields(PracticeExamField);
  }

  /**
   * Whether the block is a special exam that is closed to the user. Only a
   * sequential with one of the exam flags set consults the proctoring
   * service, and only such a block needs the user's id.
   */
  function IsProctoredExam(key: UsageKey, usage: UsageInfo, collected: map<UsageKey, map<string, bool>>, env: Environment)
    : (r: Result<bool, GateError>)
    ensures r.Err? <==> IsSpecialExamBlock(key, collected) && usage.user.None?
    ensures r == Ok(true) <==>
      IsSpecialExamBlock(key, collected) && usage.user.Some? && AttemptKeepsExamClosed(env, usage.user.value.id, key)
    ensures key.blockType != SequentialType ==> r == Ok(false)
    ensures !GetXBlockField(collected, key, ProctoredEnabledField) && !GetXBlockField(collected, key, PracticeExamField)
      ==> r == Ok(false)
    ensures !env.specialExamsEnabled ==> r != Ok(true)
    ensures usage.user.Some? && AttemptStatusSummary(env, usage.user.value.id, key.courseKey, key).None? ==> r != Ok(true)
  {
    if key.blockType == SequentialType
       && (GetXBlockField(collected, key, ProctoredEnabledField) || GetXBlockField(collected, key, PracticeExamField))
    then
      match usage.user
      case None => Err(UserMissing)
      case Some(user) =>
        var summary := AttemptStatusSummary(env, user.id, key.courseKey, key);
        Ok(env.specialExamsEnabled && summary.Some? && summary.value.status != Declined)
    else
      Ok(false)
  }

  /** Whether the milestones store lists unfulfilled "requires" milestones of the block for the user. */
  function HasPendingMilestonesForUser(key: UsageKey, usage: UsageInfo, env: Environment): (r: Result<bool, GateError>)
    ensures r.Err? <==> usage.user.None?
    ensures r == Ok(true) <==> usage.user.Some? && |CourseContentMilestones(env, RequiresQuery(key, usage.user.value.id))| > 0
  {
    match usage.user
    case None => Err(UserMissing)
    case Some(user) => Ok(CourseContentMilestones(env, MilestoneQuery(key.courseKey, key, RequiresRelationship, user.id)) != [])
  }

  /**
   * Whether the user has staff access for the given key. No user, or one who
   * is not authenticated, has none; nor has a user masquerading as a student
   * outside preview mode. Otherwise access comes from global staff, or from a
   * staff role for the key or for the key's organisation.
   */
  function HasStaffAccessToCourse(courseId: ContextKey, user: Option<User>, env: Environment): (r: bool)
    ensures r ==> user.Some? && user.value.isAuthenticated
    ensures r ==> env.inPreviewMode || courseId !in env.masqueradingAsStudent
    ensures r ==> HoldsStaffRole(env, courseId, user.value)
    ensures (user.Some? && user.value.isAuthenticated && (env.inPreviewMode || courseId !in env.masqueradingAsStudent)
             && HoldsStaffRole(env, courseId, user.value)) ==> r
  {
    if user.None? || !user.value.isAuthenticated then false
    else if !env.inPreviewMode && courseId in env.masqueradingAsStudent then false
    else
      GlobalStaffHasUser(user.value)
      || CourseStaffHasUser(env, courseId, user.value)
      || OrgStaffHasUser(env, courseId.Org(), user.value)
  }

  /**
   * The removal filter's question for one block. Staff access is checked
   * first, with the block's own key in the place of the course key, and
   * settles the answer; then the exam rule; then the milestone rule.
   */
  function UserGatedFromBlock(key: UsageKey, usage: UsageInfo, collected: map<UsageKey, map<string, bool>>, env: Environment)
    : (r: Result<bool, GateError>)
    ensures usage.user.None? ==> r == Err(UserMissing)
    ensures usage.user.Some? ==> r == Ok(Gated(key, usage.user.value, collected, env))
  {
    if HasStaffAccessToCourse(BlockContext(key), usage.user, env) then Ok(false)
    else
      match IsProctoredExam(key, usage, collected, env)
      case Err(e) => Err(e)
      case Ok(exam) => if exam then Ok(true) else HasPendingMilestonesForUser(key, usage, env)
  }

  /** The transformer's removal filters: exactly one, which asks `UserGatedFromBlock`. */
  function TransformBlockFilters(usage: UsageInfo, collected: map<UsageKey, map<string, bool>>, env: Environment)
    : (filters: seq<UsageKey -> Result<bool, GateError>>)
    ensures |filters| == 1
    ensures forall key :: filters[0](key) == UserGatedFromBlock(key, usage, collected, env)
  {
    [key => UserGatedFromBlock(key, usage, collected, env)]
  }

  /**
   * The blocks of a course tree that the user sees when this transformer
   * runs: the tree's fields collected as `requested`, its filters applied.
   */
  function VisibleBlocks(root: Block, requested: set<string>, usage: UsageInfo, env: Environment): (r: Result<set<UsageKey>, GateError>)
    ensures r.Ok? ==> r.value <= Keys(root)
    ensures r.Ok? && r.value != {} ==> root.key in r.value
  {
    var collected := CollectXBlockFields(root, requested);
    match ApplyRemovalFilters(root, TransformBlockFilters(usage, collected, env))
    case Err(e) => Err(e)
    case Ok(filtered) => Ok(BlockKeys(filtered))
  }

  /**
   * Fetches the course blocks a user sees with this transformer alone: runs
   * its collect phase on a fresh structure, then filters with the fields
   * that were requested.
   */
  method GetCourseBlocks(root: Block, usage: UsageInfo, env: Environment) returns (r: Result<set<UsageKey>, GateError>)
    ensures r == VisibleBlocks(root, MilestonesFields, usage, env)
  {
    var blockStructure := new BlockStructureCollectedData();
    Collect(blockStructure);
    assert blockStructure.requestedFields == MilestonesFields;
    r := VisibleBlocks(root, blockStructure.requestedFields, usage, env);
  }

  // ---------------------------------------------------------------------
  // Properties
  // ---------------------------------------------------------------------

  /**
   * After the collect phase has requested the exam flags, the exam rule sees
   * every block of the tree as its own fields describe it.
   */
  lemma CollectSuppliesExamFlags(root: Block, requested: set<string>, n: Block)
    requires UniqueKeys(root) && n in Nodes(root) && MilestonesFields <= requested
    ensures IsSpecialExamBlock(n.key, CollectXBlockFields(root, requested))
        <==> n.key.blockType == SequentialType
             && ((ProctoredEnabledField in n.fields && n.fields[ProctoredEnabledField])
                 || (PracticeExamField in n.fields && n.fields[PracticeExamField]))
  {
    CollectedFieldMatchesBlock(root, requested, n, ProctoredEnabledField);
    CollectedFieldMatchesBlock(root, requested, n, PracticeExamField);
  }

  /** Staff access short-circuits both rules, whatever the exam and milestone state. */
  lemma StaffAccessNeverGates(key: UsageKey, usage: UsageInfo, collected: map<UsageKey, map<string, bool>>, env: Environment)
    requires HasStaffAccessToCourse(BlockContext(key), usage.user, env)
    ensures UserGatedFromBlock(key, usage, collected, env) == Ok(false)
  {
  }

  /** Instructor roles play no part in the staff check: only staff roles are consulted. */
  lemma InstructorRolesGrantNothing(courseId: ContextKey, user: Option<User>, env: Environment, extra: set<RoleAssignment>)
    requires forall row :: row in extra ==> row.role == InstructorRole
    ensures HasStaffAccessToCourse(courseId, user, env.(roles := env.roles + extra))
        == HasStaffAccessToCourse(courseId, user, env)
  {
  }

  /** The filter applied to a course: a block is asked about only through the transformer's single filter. */
  lemma SingleFilterDecides(usage: UsageInfo, collected: map<UsageKey, map<string, bool>>, env: Environment, key: UsageKey)
    ensures AnyFilterRemoves(TransformBlockFilters(usage, collected, env), key) == UserGatedFromBlock(key, usage, collected, env)
  {
    var filters := TransformBlockFilters(usage, collected, env);
    assert filters[1..] == [];
  }

  /** A request without a user fails as a whole: no partially filtered course is returned. */
  lemma MissingUserFailsRequest(root: Block, requested: set<string>, usage: UsageInfo, env: Environment)
    requires usage.user.None?
    ensures VisibleBlocks(root, requested, usage, env) == Err(UserMissing)
  {
    SingleFilterDecides(usage, CollectXBlockFields(root, requested), env, root.key);
  }

  /**
   * A user with staff access for every block of the course sees the whole
   * course, whatever the exam attempts and milestones.
   */
  lemma StaffSeesWholeCourse(root: Block, requested: set<string>, usage: UsageInfo, env: Environment)
    requires forall k :: k in Keys(root) ==> HasStaffAccessToCourse(BlockContext(k), usage.user, env)
    ensures VisibleBlocks(root, requested, usage, env) == Ok(Keys(root))
  {
    var collected := CollectXBlockFields(root, requested);
    forall k | k in Keys(root)
      ensures AnyFilterRemoves(TransformBlockFilters(usage, collected, env), k) == Ok(false)
    {
      SingleFilterDecides(usage, collected, env, k);
    }
    PruneRemovingNothing(root, k => AnyFilterRemoves(TransformBlockFilters(usage, collected, env), k));
  }

  /**
   * Global staff who are signed in and are not masquerading as a student
   * (or are in preview mode) see the whole course.
   */
  lemma GlobalStaffSeesWholeCourse(root: Block, requested: set<string>, user: User, env: Environment)
    requires user.isAuthenticated && user.isStaff
    requires env.inPreviewMode || forall k :: k in Keys(root) ==> BlockContext(k) !in env.masqueradingAsStudent
    ensures VisibleBlocks(root, requested, UsageInfo(Some(user)), env) == Ok(Keys(root))
  {
    StaffSeesWholeCourse(root, requested, UsageInfo(Some(user)), env);
  }

  /**
   * For a present user, the visible blocks are exactly the blocks of the
   * course that lie under no gated block: a gated block disappears with its
   * whole subtree, and every other block stays.
   */
  lemma VisibleBlocksAreUngatedSubtrees(root: Block, requested: set<string>, user: User, env: Environment)
    requires UniqueKeys(root)
    ensures VisibleBlocks(root, requested, UsageInfo(Some(user)), env).Ok?
    ensures forall k :: (k in VisibleBlocks(root, requested, UsageInfo(Some(user)), env).value
      <==> k in Keys(root)
           && !exists n :: n in Nodes(root) && Gated(n.key, user, CollectXBlockFields(root, requested), env) && k in Keys(n))
  {
    var usage := UsageInfo(Some(user));
    var collected := CollectXBlockFields(root, requested);
    var removed := k => AnyFilterRemoves(TransformBlockFilters(usage, collected, env), k);
    forall k
      ensures removed(k) == Ok(Gated(k, user, collected, env))
    {
      SingleFilterDecides(usage, collected, env, k);
    }
    PruneKeepsExactlyUnhidden(root, removed);
  }
}
