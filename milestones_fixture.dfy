/**
 * The course used to exercise the milestones transformer, and the blocks a
 * learner sees in each situation the transformer's tests set up:
 *
 *                      course
 *        /          /          \            \
 *       A      TimedExam    PracticeExam   NotASpecialExam
 *      / \        / \          / \            |
 *     B   C      D   E        F   G           H
 *
 * A, TimedExam, PracticeExam and NotASpecialExam are sequentials, the leaves
 * are verticals; TimedExam is a proctored exam and PracticeExam a proctored
 * practice exam. Block ids are the names in the picture; the course key is a
 * parameter, since any course built this way behaves alike. Special exams
 * are enabled and the learner is an authenticated user who is not global
 * staff.
 */
module MilestonesFixture {
  import opened Wrappers
  import opened OpaqueKeys
  import opened BlockStructure
  import opened Milestones

  function Vertical(c: CourseKey, id: string): Block
  {
    Block(UsageKey(c, "vertical", id), map[], [])
  }

  function Key(c: CourseKey, id: string): UsageKey
  {
    Vertical(c, id).key
  }

  function A(c: CourseKey): Block
  {
    Block(UsageKey(c, SequentialType, "A"), map[], [Vertical(c, "B"), Vertical(c, "C")])
  }

  function TimedExam(c: CourseKey): Block
  {
    Block(UsageKey(c, SequentialType, "TimedExam"),
      map["is_time_limited" := true, ProctoredEnabledField := true, PracticeExamField := false],
      [Vertical(c, "D"), Vertical(c, "E")])
  }

  function PracticeExam(c: CourseKey): Block
  {
    Block(UsageKey(c, SequentialType, "PracticeExam"),
      map["is_time_limited" := true, ProctoredEnabledField := true, PracticeExamField := true],
      [Vertical(c, "F"), Vertical(c, "G")])
  }

  function NotASpecialExam(c: CourseKey): Block
  {
    Block(UsageKey(c, SequentialType, "NotASpecialExam"), map[], [Vertical(c, "H")])
  }

  function CourseRoot(c: CourseKey): Block
  {
    Block(UsageKey(c, "course", "course"), map[], [A(c), TimedExam(c), PracticeExam(c), NotASpecialExam(c)])
  }

  function AllBlocks(c: CourseKey): set<UsageKey>
  {
    {CourseRoot(c).key, A(c).key, Key(c, "B"), Key(c, "C"),
     TimedExam(c).key, Key(c, "D"), Key(c, "E"),
     PracticeExam(c).key, Key(c, "F"), Key(c, "G"),
     NotASpecialExam(c).key, Key(c, "H")}
  }

  /** The learner the tests enrol. */
  const Learner := User(1, true, false)

  /** The learner's request, with special exams enabled and the given services' answers. */
  function LearnerEnv(attempts: map<(nat, CourseKey, UsageKey), AttemptSummary>,
                      milestones: map<MilestoneQuery, seq<Milestone>>,
                      roles: set<RoleAssignment>): Environment
  {
    Environment(true, attempts, milestones, roles, false, {})
  }

  /** The milestone store's answer once `gated` requires another block the learner has not completed. */
  function GatedOn(gated: Block): map<MilestoneQuery, seq<Milestone>>
  {
    map[RequiresQuery(gated.key, Learner.id) := [Milestone(1)]]
  }

  /** The proctoring service's answer once the learner has an attempt at `exam` with the given status. */
  function AttemptAt(exam: Block, status: AttemptStatus): map<(nat, CourseKey, UsageKey), AttemptSummary>
  {
    map[(Learner.id, exam.key.courseKey, exam.key) := AttemptSummary(status)]
  }

  /**
   * The role rows the staff tests grant the learner: course staff or course
   * instructor for the course, organisation staff or organisation instructor
   * for `roleOrg`, the value those rows are created with. The tests create
   * them from the course id, so `roleOrg` is not the course's organisation.
   */
  function TestRoles(c: CourseKey, roleOrg: string): set<RoleAssignment>
  {
    {CourseRole(Learner.id, StaffRole, CourseContext(c)), CourseRole(Learner.id, InstructorRole, CourseContext(c)),
     OrgRole(Learner.id, StaffRole, roleOrg), OrgRole(Learner.id, InstructorRole, roleOrg)}
  }

  /** The filtered view the learner gets of the fixture course. */
  function LearnerView(c: CourseKey, env: Environment): Result<set<UsageKey>, GateError>
  {
    VisibleBlocks(CourseRoot(c), MilestonesFields, UsageInfo(Some(Learner)), env)
  }

  lemma VerticalShape(c: CourseKey, x: string)
    ensures Keys(Vertical(c, x)) == {Key(c, x)} && UniqueKeys(Vertical(c, x))
    ensures Nodes(Vertical(c, x)) == {Vertical(c, x)}
  {
    assert KeysOf(Vertical(c, x).children) == {} && UniqueKeysOf(Vertical(c, x).children);
    assert NodesOf(Vertical(c, x).children) == {};
  }

  /** Two childless verticals with different ids. */
  lemma TwoVerticals(c: CourseKey, x: string, y: string)
    requires x != y
    ensures KeysOf([Vertical(c, x), Vertical(c, y)]) == {Key(c, x), Key(c, y)}
    ensures UniqueKeysOf([Vertical(c, x), Vertical(c, y)])
    ensures NodesOf([Vertical(c, x), Vertical(c, y)]) == {Vertical(c, x), Vertical(c, y)}
  {
    VerticalShape(c, x);
    VerticalShape(c, y);
    var s := [Vertical(c, x), Vertical(c, y)];
    assert s[1..] == [Vertical(c, y)] && s[1..][1..] == [];
    assert KeysOf(s[1..]) == {Key(c, y)} && UniqueKeysOf(s[1..]) && NodesOf(s[1..]) == {Vertical(c, y)};
  }

  lemma OneVertical(c: CourseKey, x: string)
    ensures KeysOf([Vertical(c, x)]) == {Key(c, x)}
    ensures UniqueKeysOf([Vertical(c, x)])
    ensures NodesOf([Vertical(c, x)]) == {Vertical(c, x)}
  {
    VerticalShape(c, x);
    assert [Vertical(c, x)][1..] == [];
  }

  /** A root with four children whose subtrees are trees with pairwise disjoint keys, none of them the root's. */
  lemma FourSubtrees(root: Block)
    requires |root.children| == 4
    requires forall i :: 0 <= i < 4 ==> UniqueKeys(root.children[i]) && root.key !in Keys(root.children[i])
    requires forall i, j :: 0 <= i < j < 4 ==> Keys(root.children[i]) !! Keys(root.children[j])
    ensures UniqueKeys(root)
    ensures Keys(root) == {root.key} + Keys(root.children[0]) + Keys(root.children[1])
                                     + Keys(root.children[2]) + Keys(root.children[3])
    ensures forall i :: 0 <= i < 4 ==> root.children[i] in Nodes(root)
  {
    var cs := root.children;
    var s1, s2, s3 := cs[1..], cs[2..], cs[3..];
    assert s3[0] == cs[3] && s3[1..] == [];
    assert KeysOf(s3[1..]) == {} && UniqueKeysOf(s3[1..]) && NodesOf(s3[1..]) == {};
    assert KeysOf(s3) == Keys(cs[3]) && UniqueKeysOf(s3);
    assert NodesOf(s3) == Nodes(cs[3]);
    assert s2[0] == cs[2] && s2[1..] == s3;
    assert KeysOf(s2) == Keys(cs[2]) + Keys(cs[3]) && UniqueKeysOf(s2);
    assert NodesOf(s2) == Nodes(cs[2]) + NodesOf(s3);
    assert s1[0] == cs[1] && s1[1..] == s2;
    assert KeysOf(s1) == Keys(cs[1]) + Keys(cs[2]) + Keys(cs[3]) && UniqueKeysOf(s1);
    assert NodesOf(s1) == Nodes(cs[1]) + NodesOf(s2);
    assert cs[0] in Nodes(cs[0]) && cs[1] in Nodes(cs[1]) && cs[2] in Nodes(cs[2]) && cs[3] in Nodes(cs[3]);
  }

  lemma SubsectionKeys(c: CourseKey)
    ensures Keys(A(c)) == {A(c).key, Key(c, "B"), Key(c, "C")} && UniqueKeys(A(c))
    ensures Keys(TimedExam(c)) == {TimedExam(c).key, Key(c, "D"), Key(c, "E")} && UniqueKeys(TimedExam(c))
    ensures Keys(PracticeExam(c)) == {PracticeExam(c).key, Key(c, "F"), Key(c, "G")} && UniqueKeys(PracticeExam(c))
    ensures Keys(NotASpecialExam(c)) == {NotASpecialExam(c).key, Key(c, "H")} && UniqueKeys(NotASpecialExam(c))
  {
    TwoVerticals(c, "B", "C");
    TwoVerticals(c, "D", "E");
    TwoVerticals(c, "F", "G");
    OneVertical(c, "H");
  }

  lemma SubsectionsDisjoint(c: CourseKey)
    ensures forall i :: 0 <= i < 4 ==>
      UniqueKeys(CourseRoot(c).children[i]) && CourseRoot(c).key !in Keys(CourseRoot(c).children[i])
    ensures forall i, j :: 0 <= i < j < 4 ==> Keys(CourseRoot(c).children[i]) !! Keys(CourseRoot(c).children[j])
  {
    SubsectionKeys(c);
  }

  /** The fixture is a tree with twelve distinct blocks, and the four subsections are among them. */
  lemma FixtureIsTree(c: CourseKey)
    ensures UniqueKeys(CourseRoot(c)) && Keys(CourseRoot(c)) == AllBlocks(c)
    ensures A(c) in Nodes(CourseRoot(c)) && TimedExam(c) in Nodes(CourseRoot(c))
    ensures PracticeExam(c) in Nodes(CourseRoot(c)) && NotASpecialExam(c) in Nodes(CourseRoot(c))
  {
    SubsectionKeys(c);
    SubsectionsDisjoint(c);
    FourSubtrees(CourseRoot(c));
  }

  /** Taking one subtree out of a union of pairwise disjoint parts leaves the other parts. */
  lemma WithoutPart<T>(r: T, p0: set<T>, p1: set<T>, p2: set<T>, p3: set<T>)
    requires r !in p1 && r !in p2 && r !in p3
    requires p0 !! p1 && p0 !! p2 && p0 !! p3 && p1 !! p2 && p1 !! p3 && p2 !! p3
    ensures ({r} + p0 + p1 + p2 + p3) - p1 == {r} + p0 + p2 + p3
    ensures ({r} + p0 + p1 + p2 + p3) - p2 == {r} + p0 + p1 + p3
    ensures ({r} + p0 + p1 + p2 + p3) - p3 == {r} + p0 + p1 + p2
  {
  }

  /** The blocks left when TimedExam, PracticeExam or NotASpecialExam is removed with its subtree. */
  lemma RemainingBlocks(c: CourseKey)
    ensures AllBlocks(c) - Keys(TimedExam(c))
         == {CourseRoot(c).key, A(c).key, Key(c, "B"), Key(c, "C"),
             PracticeExam(c).key, Key(c, "F"), Key(c, "G"), NotASpecialExam(c).key, Key(c, "H")}
    ensures AllBlocks(c) - Keys(PracticeExam(c))
         == {CourseRoot(c).key, A(c).key, Key(c, "B"), Key(c, "C"),
             TimedExam(c).key, Key(c, "D"), Key(c, "E"), NotASpecialExam(c).key, Key(c, "H")}
    ensures AllBlocks(c) - Keys(NotASpecialExam(c))
         == {CourseRoot(c).key, A(c).key, Key(c, "B"), Key(c, "C"),
             TimedExam(c).key, Key(c, "D"), Key(c, "E"), PracticeExam(c).key, Key(c, "F"), Key(c, "G")}
  {
    FixtureIsTree(c);
    SubsectionKeys(c);
    SubsectionsDisjoint(c);
    var cs := CourseRoot(c).children;
    assert cs[0] == A(c) && cs[1] == TimedExam(c) && cs[2] == PracticeExam(c) && cs[3] == NotASpecialExam(c);
    assert Keys(A(c)) !! Keys(TimedExam(c)) && Keys(A(c)) !! Keys(PracticeExam(c)) && Keys(A(c)) !! Keys(NotASpecialExam(c));
    assert Keys(TimedExam(c)) !! Keys(PracticeExam(c)) && Keys(TimedExam(c)) !! Keys(NotASpecialExam(c));
    assert Keys(PracticeExam(c)) !! Keys(NotASpecialExam(c));
    WithoutPart(CourseRoot(c).key, Keys(A(c)), Keys(TimedExam(c)), Keys(PracticeExam(c)), Keys(NotASpecialExam(c)));
  }

  /** Of the fixture's blocks, exactly TimedExam and PracticeExam are special exams once the fields are collected. */
  lemma FixtureSpecialExams(c: CourseKey)
    ensures forall k :: k in AllBlocks(c) ==>
      (IsSpecialExamBlock(k, CollectXBlockFields(CourseRoot(c), MilestonesFields))
       <==> k == TimedExam(c).key || k == PracticeExam(c).key)
  {
    FixtureIsTree(c);
    var root := CourseRoot(c);
    CollectSuppliesExamFlags(root, MilestonesFields, A(c));
    CollectSuppliesExamFlags(root, MilestonesFields, TimedExam(c));
    CollectSuppliesExamFlags(root, MilestonesFields, PracticeExam(c));
    CollectSuppliesExamFlags(root, MilestonesFields, NotASpecialExam(c));
  }

  /**
   * In the fixture, a learner whose role rows never name a block key nor the
   * course's organisation is gated from a block exactly when it is a special
   * exam their attempt keeps closed or it has pending milestones.
   */
  lemma LearnerGate(c: CourseKey, env: Environment, k: UsageKey)
    requires k in AllBlocks(c) && !env.inPreviewMode && env.masqueradingAsStudent == {}
    requires forall row :: row in env.roles ==>
      !(row.CourseRole? && row.courseId.BlockContext?) && !(row.OrgRole? && row.org == c.org)
    ensures UserGatedFromBlock(k, UsageInfo(Some(Learner)), CollectXBlockFields(CourseRoot(c), MilestonesFields), env)
         == Ok(((k == TimedExam(c).key || k == PracticeExam(c).key) && AttemptKeepsExamClosed(env, Learner.id, k))
               || CourseContentMilestones(env, RequiresQuery(k, Learner.id)) != [])
  {
    FixtureSpecialExams(c);
    assert CourseRole(Learner.id, StaffRole, BlockContext(k)) !in env.roles;
    assert OrgRole(Learner.id, StaffRole, BlockContext(k).Org()) !in env.roles;
  }

  /**
   * When the learner is gated from exactly one block, they see every block
   * but that block's subtree.
   */
  lemma OnlyOneBlockGated(c: CourseKey, env: Environment, gone: Block)
    requires gone in Nodes(CourseRoot(c))
    requires forall k :: k in AllBlocks(c) ==>
      UserGatedFromBlock(k, UsageInfo(Some(Learner)), CollectXBlockFields(CourseRoot(c), MilestonesFields), env) == Ok(k == gone.key)
    ensures LearnerView(c, env) == Ok(AllBlocks(c) - Keys(gone))
  {
    FixtureIsTree(c);
    var usage := UsageInfo(Some(Learner));
    var collected := CollectXBlockFields(CourseRoot(c), MilestonesFields);
    var removed := k => AnyFilterRemoves(TransformBlockFilters(usage, collected, env), k);
    forall k | k in Keys(CourseRoot(c))
      ensures removed(k) == Ok(k == gone.key)
    {
      SingleFilterDecides(usage, collected, env, k);
    }
    PruneRemovesOneSubtree(CourseRoot(c), removed, gone);
  }

  /** A learner who is gated from no block sees every block. */
  lemma NothingGated(c: CourseKey, env: Environment)
    requires forall k :: k in AllBlocks(c) ==>
      UserGatedFromBlock(k, UsageInfo(Some(Learner)), CollectXBlockFields(CourseRoot(c), MilestonesFields), env) == Ok(false)
    ensures LearnerView(c, env) == Ok(AllBlocks(c))
  {
    FixtureIsTree(c);
    var usage := UsageInfo(Some(Learner));
    var collected := CollectXBlockFields(CourseRoot(c), MilestonesFields);
    var removed := k => AnyFilterRemoves(TransformBlockFilters(usage, collected, env), k);
    forall k | k in Keys(CourseRoot(c))
      ensures removed(k) == Ok(false)
    {
      SingleFilterDecides(usage, collected, env, k);
    }
    PruneRemovingNothing(CourseRoot(c), removed);
  }

  /** With no exam attempt and no milestones, the learner sees every block. */
  lemma ExamNotCreated(c: CourseKey)
    ensures LearnerView(c, LearnerEnv(map[], map[], {})) == Ok(AllBlocks(c))
  {
    var env := LearnerEnv(map[], map[], {});
    forall k | k in AllBlocks(c)
      ensures UserGatedFromBlock(k, UsageInfo(Some(Learner)), CollectXBlockFields(CourseRoot(c), MilestonesFields), env) == Ok(false)
    {
      LearnerGate(c, env, k);
    }
    NothingGated(c, env);
  }

  /**
   * An attempt at a special exam hides that exam's subsection and its
   * children unless the attempt was declined; nothing else is hidden.
   */
  lemma ExamCreated(c: CourseKey, exam: Block, status: AttemptStatus)
    requires exam == TimedExam(c) || exam == PracticeExam(c)
    ensures LearnerView(c, LearnerEnv(AttemptAt(exam, status), map[], {}))
         == Ok(if status == Declined then AllBlocks(c) else AllBlocks(c) - Keys(exam))
  {
    var env := LearnerEnv(AttemptAt(exam, status), map[], {});
    forall k | k in AllBlocks(c)
      ensures UserGatedFromBlock(k, UsageInfo(Some(Learner)), CollectXBlockFields(CourseRoot(c), MilestonesFields), env)
           == Ok(status != Declined && k == exam.key)
    {
      LearnerGate(c, env, k);
    }
    FixtureIsTree(c);
    if status == Declined {
      NothingGated(c, env);
    } else {
      OnlyOneBlockGated(c, env, exam);
    }
  }

  /** The five exam-attempt cases the tests list, with their expected visible blocks. */
  lemma ExamAttemptCases(c: CourseKey)
    ensures LearnerView(c, LearnerEnv(AttemptAt(TimedExam(c), Declined), map[], {})) == Ok(AllBlocks(c))
    ensures LearnerView(c, LearnerEnv(AttemptAt(TimedExam(c), Submitted), map[], {}))
         == Ok({CourseRoot(c).key, A(c).key, Key(c, "B"), Key(c, "C"),
                PracticeExam(c).key, Key(c, "F"), Key(c, "G"), NotASpecialExam(c).key, Key(c, "H")})
    ensures LearnerView(c, LearnerEnv(AttemptAt(TimedExam(c), Rejected), map[], {}))
         == Ok({CourseRoot(c).key, A(c).key, Key(c, "B"), Key(c, "C"),
                PracticeExam(c).key, Key(c, "F"), Key(c, "G"), NotASpecialExam(c).key, Key(c, "H")})
    ensures LearnerView(c, LearnerEnv(AttemptAt(PracticeExam(c), Declined), map[], {})) == Ok(AllBlocks(c))
    ensures LearnerView(c, LearnerEnv(AttemptAt(PracticeExam(c), Rejected), map[], {}))
         == Ok({CourseRoot(c).key, A(c).key, Key(c, "B"), Key(c, "C"),
                TimedExam(c).key, Key(c, "D"), Key(c, "E"), NotASpecialExam(c).key, Key(c, "H")})
  {
    ExamCreated(c, TimedExam(c), Declined);
    ExamCreated(c, TimedExam(c), Submitted);
    ExamCreated(c, TimedExam(c), Rejected);
    ExamCreated(c, PracticeExam(c), Declined);
    ExamCreated(c, PracticeExam(c), Rejected);
    RemainingBlocks(c);
  }

  /**
   * Gating a subsection on TimedExam, which the learner has not completed,
   * hides that subsection and its children, whether it is a special exam or
   * not, and even when the learner holds any of the course or organisation
   * staff or instructor roles the tests grant. Instructor roles are never
   * consulted; the course staff row is keyed by the course while the lookup
   * uses the block's key; and the organisation staff row holds the course id
   * the tests create it with, not the organisation the lookup uses.
   */
  lemma SubsectionGated(c: CourseKey, gated: Block, roles: set<RoleAssignment>, roleOrg: string)
    requires gated == PracticeExam(c) || gated == NotASpecialExam(c)
    requires roles <= TestRoles(c, roleOrg) && roleOrg != c.org
    ensures LearnerView(c, LearnerEnv(map[], GatedOn(gated), roles)) == Ok(AllBlocks(c) - Keys(gated))
  {
    var env := LearnerEnv(map[], GatedOn(gated), roles);
    forall k | k in AllBlocks(c)
      ensures UserGatedFromBlock(k, UsageInfo(Some(Learner)), CollectXBlockFields(CourseRoot(c), MilestonesFields), env)
           == Ok(k == gated.key)
    {
      LearnerGate(c, env, k);
    }
    FixtureIsTree(c);
    OnlyOneBlockGated(c, env, gated);
  }

  /** The gating tests' expected visible blocks, for a learner and for one holding the tests' roles. */
  lemma GatingCases(c: CourseKey, roles: set<RoleAssignment>, roleOrg: string)
    requires roles <= TestRoles(c, roleOrg) && roleOrg != c.org
    ensures LearnerView(c, LearnerEnv(map[], GatedOn(PracticeExam(c)), roles))
         == Ok({CourseRoot(c).key, A(c).key, Key(c, "B"), Key(c, "C"),
                TimedExam(c).key, Key(c, "D"), Key(c, "E"), NotASpecialExam(c).key, Key(c, "H")})
    ensures LearnerView(c, LearnerEnv(map[], GatedOn(NotASpecialExam(c)), {}))
         == Ok({CourseRoot(c).key, A(c).key, Key(c, "B"), Key(c, "C"),
                TimedExam(c).key, Key(c, "D"), Key(c, "E"), PracticeExam(c).key, Key(c, "F"), Key(c, "G")})
  {
    SubsectionGated(c, PracticeExam(c), roles, roleOrg);
    SubsectionGated(c, NotASpecialExam(c), {}, roleOrg);
    RemainingBlocks(c);
  }

  /**
   * A rejected TimedExam attempt hides TimedExam and its children from a
   * learner holding any of the course or organisation roles the tests grant.
   */
  lemma StaffRolesWithRejectedExam(c: CourseKey, roles: set<RoleAssignment>, roleOrg: string)
    requires roles <= TestRoles(c, roleOrg) && roleOrg != c.org
    ensures LearnerView(c, LearnerEnv(AttemptAt(TimedExam(c), Rejected), map[], roles))
         == Ok({CourseRoot(c).key, A(c).key, Key(c, "B"), Key(c, "C"),
                PracticeExam(c).key, Key(c, "F"), Key(c, "G"), NotASpecialExam(c).key, Key(c, "H")})
  {
    var env := LearnerEnv(AttemptAt(TimedExam(c), Rejected), map[], roles);
    forall k | k in AllBlocks(c)
      ensures UserGatedFromBlock(k, UsageInfo(Some(Learner)), CollectXBlockFields(CourseRoot(c), MilestonesFields), env)
           == Ok(k == TimedExam(c).key)
    {
      LearnerGate(c, env, k);
    }
    FixtureIsTree(c);
    OnlyOneBlockGated(c, env, TimedExam(c));
    RemainingBlocks(c);
  }
}
