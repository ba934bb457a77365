# Milestones transformer of the course blocks API

This project models the milestones transformer of the Open edX course blocks
API (`lms/djangoapps/course_api/blocks/transformers/milestones.py`). When a
learner asks for the blocks of a course, the transformer removes every block
the learner is gated from, together with everything under it. A block is
gated unless the user has staff access for it, and then only when it is a
special exam (a sequential flagged as a proctored or practice exam) whose
attempt has not been declined, or when the milestones store lists unfulfilled
"requires" milestones for it.

Modules:

- `Wrappers`: `Option` and `Result`.
- `OpaqueKeys`: course keys, usage (block) keys, and the context key a role is
  looked up under.
- `BlockStructure`: the course tree, the collected XBlock fields, the
  collected-data object the collect phase writes to, and the effect of a
  removal filter on the tree (a removed block disappears with its subtree).
- `Milestones`: the transformer itself (`Collect`, `IsProctoredExam`,
  `HasPendingMilestonesForUser`, `HasStaffAccessToCourse`,
  `UserGatedFromBlock`, `TransformBlockFilters`) and the view it produces.
- `MilestonesFixture`: the course used by the transformer's unit tests and the
  block set each test expects, stated and proved as lemmas.

The services the transformer calls (proctoring attempt summaries, the
milestones store, the role tables, masquerade and preview state, the
`ENABLE_SPECIAL_EXAMS` setting) are given as one `Environment` value, so each
rule is a function of the request and that value.

The staff check passes the block's own usage key where its parameter is
named `course_key` (milestones.py:50), so both the masquerade check (line 102)
and the role lookups receive the block key; and it consults only staff roles, never
instructor roles (lines 105-109). So a course staff row, which is keyed by
the course, never matches; an organisation staff row matches only when it
holds the organisation of the block's course. The unit tests that grant roles
create every role with the course id as its argument
(test_milestones.py:229, 245), so the organisation rows hold the course id
rather than the organisation, and none of the four roles lifts the gate: the
learner is gated as without them (test_milestones.py:226-256). Only global
staff, a course staff row keyed by the block itself, or an organisation staff
row for the course's organisation bypasses the gate.
`InstructorRolesGrantNothing`, `MilestonesFixture.GatingCases` and
`MilestonesFixture.StaffRolesWithRejectedExam` state these consequences.

## Model

| member | source | states |
|---|---|---|
| BlockStructure.BlockStructureCollectedData.RequestXBlockFields | lms/djangoapps/course_api/blocks/transformers/milestones.py:41-42 | requesting a field adds exactly that field to the requested set |
| Milestones.Collect | lms/djangoapps/course_api/blocks/transformers/milestones.py:33-42 | the collect phase adds exactly `is_proctored_enabled` and `is_practice_exam` to the requested fields and nothing else |
| BlockStructure.CollectedTableCoversTree | lms/djangoapps/course_api/blocks/transformers/milestones.py:41-42 | collection records an entry for every block of the tree and for no other key |
| BlockStructure.CollectedFieldMatchesBlock | lms/djangoapps/course_api/blocks/transformers/milestones.py:65-66 | in a tree with unique keys, a collected field read for any block is true exactly when it was requested and the block's own field is set |
| BlockStructure.CollectXBlockFields | lms/djangoapps/course_api/blocks/transformers/milestones.py:41-42 | the collected table holds the root's requested fields under the root's key, and no entry holds a field that was not requested |
| BlockStructure.CollectXBlockFieldsOf | lms/djangoapps/course_api/blocks/transformers/milestones.py:41-42 | the table collected from a list of subtrees holds only requested fields |
| BlockStructure.AnyFilterRemoves | lms/djangoapps/course_api/blocks/transformers/milestones.py:55 | with no filters nothing is removed; a removal is backed by a filter that removes the block, an error by a filter that fails with it, and a keep by every filter keeping the block |
| BlockStructure.ApplyRemovalFilters | lms/djangoapps/course_api/blocks/transformers/milestones.py:55 | applying the filter list keeps the root's key and only keys of the tree, and an empty filter list leaves the tree unchanged |
| Milestones.VisibleBlocks | lms/djangoapps/course_api/blocks/transformers/tests/test_milestones.py:150-157 | the keys returned for a course are keys of the course, and any non-empty result contains the course root |
| Milestones.CollectSuppliesExamFlags | lms/djangoapps/course_api/blocks/transformers/milestones.py:63-68 | once both exam flags are collected, a block is a special exam exactly when it is a sequential whose own proctored or practice flag is set |
| Milestones.IsProctoredExam | lms/djangoapps/course_api/blocks/transformers/milestones.py:57-79 | fails exactly for a flagged sequential with no user; true exactly for a flagged sequential whose attempt summary exists and is not declined while special exams are enabled; false for any non-sequential, for unflagged blocks, with the feature off, and with no attempt |
| Milestones.HasPendingMilestonesForUser | lms/djangoapps/course_api/blocks/transformers/milestones.py:81-92 | fails exactly when there is no user; true exactly when the store lists a "requires" milestone of the block for the user |
| Milestones.HasStaffAccessToCourse | lms/djangoapps/course_api/blocks/transformers/milestones.py:94-109 | true if and only if the user is present and authenticated, is not masquerading as a student for the key outside preview mode, and is global staff or holds a staff row for the key or its organisation |
| Milestones.InstructorRolesGrantNothing | lms/djangoapps/course_api/blocks/transformers/milestones.py:105-109 | adding instructor role rows never changes the staff check |
| Milestones.UserGatedFromBlock | lms/djangoapps/course_api/blocks/transformers/milestones.py:45-53 | with no user the question fails; otherwise the block is gated exactly when the user lacks staff access for it and it is a closed special exam or has pending milestones |
| Milestones.StaffAccessNeverGates | lms/djangoapps/course_api/blocks/transformers/milestones.py:50 | staff access settles the question as "not gated" before either rule is consulted, even with no exam data |
| Milestones.TransformBlockFilters | lms/djangoapps/course_api/blocks/transformers/milestones.py:44-55 | the transformer contributes exactly one removal filter, and it answers with the gate question for every block |
| Milestones.SingleFilterDecides | lms/djangoapps/course_api/blocks/transformers/milestones.py:55 | applying the transformer's filter list removes a block exactly when the gate question says so |
| BlockStructure.AnyFilterRemovesIsDisjunction | lms/djangoapps/course_api/blocks/transformers/milestones.py:55 | with every filter answering, a block is removed exactly when some filter removes it |
| BlockStructure.Prune | lms/djangoapps/course_api/blocks/transformers/milestones.py:55 | a kept tree keeps its root's key and only keys of the original tree |
| BlockStructure.PruneKeepsExactlyUnhidden | lms/djangoapps/course_api/blocks/transformers/milestones.py:55 | when the filter answers for every block, the kept keys are exactly the tree's keys that lie under no removed block |
| BlockStructure.PruneRemovingNothing | lms/djangoapps/course_api/blocks/transformers/milestones.py:55 | a filter that removes nothing leaves the tree unchanged |
| BlockStructure.PruneRemovesOneSubtree | lms/djangoapps/course_api/blocks/transformers/milestones.py:55 | a filter removing exactly one block drops exactly that block's subtree |
| BlockStructure.PrunedBlocksPassFilter | lms/djangoapps/course_api/blocks/transformers/milestones.py:55 | every block left after filtering is one the filter kept |
| BlockStructure.PruneIdempotent | lms/djangoapps/course_api/blocks/transformers/milestones.py:55 | filtering an already filtered tree with the same filter changes nothing |
| Milestones.GetCourseBlocks | lms/djangoapps/course_api/blocks/transformers/tests/test_milestones.py:150-154 | running the collect phase on fresh data and then the filter yields the visible blocks for the two exam fields |
| Milestones.MissingUserFailsRequest | lms/djangoapps/course_api/blocks/transformers/milestones.py:50-53 | a request without a user fails as a whole rather than returning a partial course |
| Milestones.StaffSeesWholeCourse | lms/djangoapps/course_api/blocks/transformers/milestones.py:50 | a user with staff access for every block sees every block |
| Milestones.GlobalStaffSeesWholeCourse | lms/djangoapps/course_api/blocks/transformers/milestones.py:99-106 | authenticated global staff who are not masquerading (or are in preview) see the whole course |
| Milestones.VisibleBlocksAreUngatedSubtrees | lms/djangoapps/course_api/blocks/transformers/milestones.py:44-55 | for a present user, the visible blocks are exactly those lying under no gated block |
| MilestonesFixture.FixtureIsTree | lms/djangoapps/course_api/blocks/transformers/tests/test_milestones.py:89-147 | the test course has unique keys, holds exactly its twelve blocks, and contains its four subsections |
| MilestonesFixture.FixtureSpecialExams | lms/djangoapps/course_api/blocks/transformers/tests/test_milestones.py:118-139 | in the test course exactly TimedExam and PracticeExam are special exams |
| MilestonesFixture.ExamNotCreated | lms/djangoapps/course_api/blocks/transformers/tests/test_milestones.py:149-158 | with no exam attempts and no milestones the learner sees all twelve blocks |
| MilestonesFixture.ExamCreated | lms/djangoapps/course_api/blocks/transformers/tests/test_milestones.py:188-198 | with one attempt at an exam, the learner sees everything if it is declined and otherwise everything but that exam's subtree |
| MilestonesFixture.ExamAttemptCases | lms/djangoapps/course_api/blocks/transformers/tests/test_milestones.py:160-198 | the five attempt cases give exactly the expected block sets |
| MilestonesFixture.SubsectionGated | lms/djangoapps/course_api/blocks/transformers/tests/test_milestones.py:200-240 | a subsection gated on a prerequisite disappears with its subtree, also for a learner holding course or organisation roles |
| MilestonesFixture.GatingCases | lms/djangoapps/course_api/blocks/transformers/tests/test_milestones.py:200-240 | gating PracticeExam or NotASpecialExam gives exactly the expected block sets, for a learner with or without the four roles |
| MilestonesFixture.StaffRolesWithRejectedExam | lms/djangoapps/course_api/blocks/transformers/tests/test_milestones.py:242-256 | a learner holding course or organisation roles with a rejected TimedExam attempt loses exactly TimedExam's subtree |

## Left out

- The proctoring service, the milestones store, the role tables, masquerade and preview state are foreign code; the model takes their answers as data in `Environment`.
- `Milestones.AttemptStatusSummary`, `Milestones.CourseContentMilestones`, `Milestones.RequiresQuery`, `Milestones.GlobalStaffHasUser`, `Milestones.CourseStaffHasUser`, `Milestones.OrgStaffHasUser`, `BlockStructure.GetXBlockField` and `BlockStructure.RequestedFieldsOf` are the `Environment` and collected-table lookups standing in for the foreign calls, with no contract of their own: a missing attempt entry means no summary, a missing milestone entry means no milestones, global staff is the user's `is_staff` flag, course or organisation staff is a staff row with exactly that key or organisation, and a field that was not collected reads as false. What the transformer promises about them is stated by `IsProctoredExam`, `HasPendingMilestonesForUser`, `HasStaffAccessToCourse`, `InstructorRolesGrantNothing` and `CollectedFieldMatchesBlock`.
- The `ENABLE_SPECIAL_EXAMS` setting is a boolean in `Environment`; the default of false when it is missing is not modelled separately.
- The block-structure framework is not part of this model; only the effect of a removal filter (a removed block disappears with its subtree, the order of evaluation aside) is modelled, as the tests observe it.
- Trees whose keys repeat are outside the characterisation lemmas, since a block structure holds each key once.
- XBlock fields are modelled by their truth value; a field that is missing reads as false, as `None` does in the source.
- The string forms of keys passed to the services are modelled by the keys themselves; the services are looked up by key.
- Re-evaluating a prerequisite after the learner completes content belongs to the gating API, which is not part of this model.
- `MilestonesFixture`: the course key is a parameter; the organisation roles the tests create hold the course id in place of an organisation, which the fixture states as any string other than the course's organisation (`roleOrg != c.org`).
- The acceptance tests under common/test/acceptance and the theming tests drive a browser or style sheets and are not part of this model.
- Masquerading as a specific student is modelled only through the masquerade set the staff check reads; what that student would see is not modelled.
