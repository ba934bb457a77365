/**
 * The block-structure framework as far as a filtering transformer sees it:
 * a course tree, the registry of XBlock fields that transformers request in
 * their collect phase, the table of collected field values, and the removal
 * filters whose effect is to drop a block together with its whole subtree.
 */
module BlockStructure {
  import opened Wrappers
  import opened OpaqueKeys

  /**
   * One block of a course tree: its usage key, its XBlock fields and its
   * children in order. A field is represented by its truth value, which is
   * all that a removal filter reads of it.
   */
  datatype Block = Block(key: UsageKey, fields: map<string, bool>, children: seq<Block>)

  /** The keys of a block and of all its descendants. */
  function Keys(b: Block): set<UsageKey>
    decreases b
  {
    {b.key} + KeysOf(b.children)
  }

  function KeysOf(bs: seq<Block>): set<UsageKey>
    decreases bs
  {
    if bs == [] then {} else Keys(bs[0]) + KeysOf(bs[1..])
  }

  /** Every block of the tree rooted at `b`, `b` included. */
  function Nodes(b: Block): set<Block>
    decreases b
  {
    {b} + NodesOf(b.children)
  }

  function NodesOf(bs: seq<Block>): set<Block>
    decreases bs
  {
    if bs == [] then {} else Nodes(bs[0]) + NodesOf(bs[1..])
  }

  /** No usage key occurs twice: every block is reached by exactly one path from the root. */
  predicate UniqueKeys(b: Block)
    decreases b
  {
    b.key !in KeysOf(b.children) && UniqueKeysOf(b.children)
  }

  predicate UniqueKeysOf(bs: seq<Block>)
    decreases bs
  {
    bs == [] || (UniqueKeys(bs[0]) && Keys(bs[0]) !! KeysOf(bs[1..]) && UniqueKeysOf(bs[1..]))
  }

  // ---------------------------------------------------------------------
  // Field collection
  // ---------------------------------------------------------------------

  /** What a transformer's collect phase writes to: the names of the XBlock fields requested so far. */
  class BlockStructureCollectedData {
    var requestedFields: set<string>

    constructor ()
      ensures requestedFields == {}
    {
      requestedFields := {};
    }

    /** Asks for the named field to be collected for every block of the structure. */
    method RequestXBlockFields(fieldName: string)
      modifies this
      ensures requestedFields == old(requestedFields) + {fieldName}
    {
      requestedFields := requestedFields + {fieldName};
    }
  }

  /** The fields of one block that were requested. */
  function RequestedFieldsOf(fields: map<string, bool>, requested: set<string>): map<string, bool>
  {
    map f | f in fields && f in requested :: fields[f]
  }

  /** The collected field table of a tree: for each block key, the requested fields of that block. */
  function CollectXBlockFields(b: Block, requested: set<string>): (r: map<UsageKey, map<string, bool>>)
    ensures b.key in r && r[b.key] == RequestedFieldsOf(b.fields, requested)
    ensures forall k, f :: k in r && f in r[k] ==> f in requested
    decreases b
  {
    CollectXBlockFieldsOf(b.children, requested)[b.key := RequestedFieldsOf(b.fields, requested)]
  }

  function CollectXBlockFieldsOf(bs: seq<Block>, requested: set<string>): (r: map<UsageKey, map<string, bool>>)
    ensures forall k, f :: k in r && f in r[k] ==> f in requested
    decreases bs
  {
    if bs == [] then map[] else CollectXBlockFields(bs[0], requested) + CollectXBlockFieldsOf(bs[1..], requested)
  }

  /**
   * A collected field of a block. A field that was not collected, or a key
   * that is not in the table, reads as absent, which is false.
   */
  function GetXBlockField(collected: map<UsageKey, map<string, bool>>, key: UsageKey, fieldName: string): bool
  {
    key in collected && fieldName in collected[key] && collected[key][fieldName]
  }

  /** The collected table has an entry for exactly the blocks of the tree. */
  lemma {:induction false} CollectedTableCoversTree(b: Block, requested: set<string>)
    ensures CollectXBlockFields(b, requested).Keys == Keys(b)
    decreases b
  {
    CollectedTableCoversTreeOf(b.children, requested);
  }

  lemma {:induction false} CollectedTableCoversTreeOf(bs: seq<Block>, requested: set<string>)
    ensures CollectXBlockFieldsOf(bs, requested).Keys == KeysOf(bs)
    decreases bs
  {
    if bs != [] {
      CollectedTableCoversTree(bs[0], requested);
      CollectedTableCoversTreeOf(bs[1..], requested);
    }
  }

  /**
   * Reading a field of any block of a tree from its collected table gives the
   * block's own value when the field was requested, and absent otherwise.
   */
  lemma {:induction false} CollectedFieldMatchesBlock(b: Block, requested: set<string>, n: Block, fieldName: string)
    requires UniqueKeys(b) && n in Nodes(b)
    ensures GetXBlockField(CollectXBlockFields(b, requested), n.key, fieldName)
         == (fieldName in requested && fieldName in n.fields && n.fields[fieldName])
    decreases b
  {
    if n != b {
      NodeKeysWithinOf(b.children, n);
      CollectedFieldMatchesBlockOf(b.children, requested, n, fieldName);
    }
  }

  lemma {:induction false} CollectedFieldMatchesBlockOf(bs: seq<Block>, requested: set<string>, n: Block, fieldName: string)
    requires UniqueKeysOf(bs) && n in NodesOf(bs)
    ensures GetXBlockField(CollectXBlockFieldsOf(bs, requested), n.key, fieldName)
         == (fieldName in requested && fieldName in n.fields && n.fields[fieldName])
    decreases bs
  {
    CollectedTableCoversTreeOf(bs[1..], requested);
    if n in Nodes(bs[0]) {
      NodeKeysWithin(bs[0], n);
      CollectedFieldMatchesBlock(bs[0], requested, n, fieldName);
    } else {
      CollectedTableCoversTree(bs[0], requested);
      NodeKeysWithinOf(bs[1..], n);
      CollectedFieldMatchesBlockOf(bs[1..], requested, n, fieldName);
    }
  }

  // ---------------------------------------------------------------------
  // Structural facts
  // ---------------------------------------------------------------------

  /** A block of the tree carries only keys of the tree. */
  lemma {:induction false} NodeKeysWithin(b: Block, n: Block)
    requires n in Nodes(b)
    ensures Keys(n) <= Keys(b)
    decreases b
  {
    if n != b {
      NodeKeysWithinOf(b.children, n);
    }
  }

  lemma {:induction false} NodeKeysWithinOf(bs: seq<Block>, n: Block)
    requires n in NodesOf(bs)
    ensures Keys(n) <= KeysOf(bs)
    decreases bs
  {
    if n in Nodes(bs[0]) {
      NodeKeysWithin(bs[0], n);
    } else {
      NodeKeysWithinOf(bs[1..], n);
    }
  }

  /** In a tree with unique keys, a key names at most one block. */
  lemma {:induction false} KeyNamesOneBlock(b: Block, n1: Block, n2: Block)
    requires UniqueKeys(b) && n1 in Nodes(b) && n2 in Nodes(b) && n1.key == n2.key
    ensures n1 == n2
    decreases b
  {
    if n1 == b && n2 != b {
      NodeKeysWithinOf(b.children, n2);
    } else if n2 == b && n1 != b {
      NodeKeysWithinOf(b.children, n1);
    } else if n1 != b && n2 != b {
      KeyNamesOneBlockOf(b.children, n1, n2);
    }
  }

  lemma {:induction false} KeyNamesOneBlockOf(bs: seq<Block>, n1: Block, n2: Block)
    requires UniqueKeysOf(bs) && n1 in NodesOf(bs) && n2 in NodesOf(bs) && n1.key == n2.key
    ensures n1 == n2
    decreases bs
  {
    var first, rest := bs[0], bs[1..];
    if n1 in Nodes(first) && n2 in Nodes(first) {
      KeyNamesOneBlock(first, n1, n2);
    } else if n1 !in Nodes(first) && n2 !in Nodes(first) {
      KeyNamesOneBlockOf(rest, n1, n2);
    } else if n1 in Nodes(first) {
      NodeKeysWithin(first, n1);
      NodeKeysWithinOf(rest, n2);
      assert false;
    } else {
      NodeKeysWithin(first, n2);
      NodeKeysWithinOf(rest, n1);
      assert false;
    }
  }

  // ---------------------------------------------------------------------
  // Removal filters
  // ---------------------------------------------------------------------

  /**
   * Applies a removal filter to a tree. A block for which the filter answers
   * true is dropped with its whole subtree, and its descendants are not
   * consulted; the result is None when the root itself is dropped. When the
   * filter fails on a block it consults, the whole application fails: no
   * partially filtered tree is returned.
   */
  function Prune<E>(b: Block, removed: UsageKey -> Result<bool, E>): (r: Result<Option<Block>, E>)
    ensures r.Ok? && r.value.Some? ==> r.value.value.key == b.key && Keys(r.value.value) <= Keys(b)
    decreases b
  {
    match removed(b.key)
    case Err(e) => Err(e)
    case Ok(drop) =>
      if drop then Ok(None)
      else
        match PruneAll(b.children, removed)
        case Err(e) => Err(e)
        case Ok(kept) => Ok(Some(Block(b.key, b.fields, kept)))
  }

  function PruneAll<E>(bs: seq<Block>, removed: UsageKey -> Result<bool, E>): (r: Result<seq<Block>, E>)
    ensures r.Ok? ==> KeysOf(r.value) <= KeysOf(bs)
    decreases bs
  {
    if bs == [] then Ok([])
    else
      match Prune(bs[0], removed)
      case Err(e) => Err(e)
      case Ok(first) =>
        match PruneAll(bs[1..], removed)
        case Err(e) => Err(e)
        case Ok(rest) =>
          var kept := (if first.Some? then [first.value] else []) + rest;
          assert KeysOf(kept) == (if first.Some? then Keys(first.value) else {}) + KeysOf(rest) by {
            if first.Some? {
              assert kept[0] == first.value && kept[1..] == rest;
            } else {
              assert kept == rest;
            }
          }
          Ok(kept)
  }

  /** The keys of a filtered structure, as enumerating its blocks yields them. */
  function BlockKeys(r: Option<Block>): set<UsageKey>
  {
    match r
    case None => {}
    case Some(b) => Keys(b)
  }

  /**
   * Combines the removal filters of all transformers: a block is removed when
   * some filter removes it. Filters are consulted in order, the first one to
   * remove the block settles it, and a failing filter fails the combination.
   */
  function AnyFilterRemoves<E>(filters: seq<UsageKey -> Result<bool, E>>, key: UsageKey): (r: Result<bool, E>)
    ensures filters == [] ==> r == Ok(false)
    ensures r == Ok(true) ==> exists i :: 0 <= i < |filters| && filters[i](key) == Ok(true)
    ensures r.Err? ==> exists i :: 0 <= i < |filters| && filters[i](key) == Err(r.error)
    ensures r == Ok(false) ==> forall i :: 0 <= i < |filters| ==> filters[i](key) == Ok(false)
    decreases |filters|
  {
    if filters == [] then Ok(false)
    else
      match filters[0](key)
      case Err(e) => Err(e)
      case Ok(drop) => if drop then Ok(true) else AnyFilterRemoves(filters[1..], key)
  }

  /** Applies the filters of all transformers to a tree at once. */
  function ApplyRemovalFilters<E>(b: Block, filters: seq<UsageKey -> Result<bool, E>>): (r: Result<Option<Block>, E>)
    ensures r.Ok? && r.value.Some? ==> r.value.value.key == b.key && Keys(r.value.value) <= Keys(b)
    ensures filters == [] ==> r == Ok(Some(b))
  {
    var removed := key => AnyFilterRemoves(filters, key);
    if filters == [] then PruneRemovingNothing(b, removed); Prune(b, removed)
    else Prune(b, removed)
  }

  /** When no filter fails, combining filters is their disjunction. */
  lemma {:induction false} AnyFilterRemovesIsDisjunction<E>(filters: seq<UsageKey -> Result<bool, E>>, key: UsageKey)
    requires forall i :: 0 <= i < |filters| ==> filters[i](key).Ok?
    ensures AnyFilterRemoves(filters, key).Ok?
    ensures AnyFilterRemoves(filters, key).value <==> exists i :: 0 <= i < |filters| && filters[i](key) == Ok(true)
    decreases |filters|
  {
    if filters != [] && filters[0](key) == Ok(false) {
      AnyFilterRemovesIsDisjunction(filters[1..], key);
      if AnyFilterRemoves(filters, key).value {
        var i :| 0 <= i < |filters| - 1 && filters[1..][i](key) == Ok(true);
        assert filters[i + 1](key) == Ok(true);
      }
    }
  }

  /** A block lies under a removed block: some block of the tree is removed and has it in its subtree. */
  ghost predicate HiddenBy<E>(b: Block, removed: UsageKey -> Result<bool, E>, k: UsageKey)
  {
    exists n :: n in Nodes(b) && removed(n.key) == Ok(true) && k in Keys(n)
  }

  ghost predicate HiddenByOf<E>(bs: seq<Block>, removed: UsageKey -> Result<bool, E>, k: UsageKey)
  {
    exists n :: n in NodesOf(bs) && removed(n.key) == Ok(true) && k in Keys(n)
  }

  lemma HiddenWithin<E>(b: Block, removed: UsageKey -> Result<bool, E>, k: UsageKey)
    requires HiddenBy(b, removed, k)
    ensures k in Keys(b)
  {
    var n :| n in Nodes(b) && removed(n.key) == Ok(true) && k in Keys(n);
    NodeKeysWithin(b, n);
  }

  lemma HiddenWithinOf<E>(bs: seq<Block>, removed: UsageKey -> Result<bool, E>, k: UsageKey)
    requires HiddenByOf(bs, removed, k)
    ensures k in KeysOf(bs)
  {
    var n :| n in NodesOf(bs) && removed(n.key) == Ok(true) && k in Keys(n);
    NodeKeysWithinOf(bs, n);
  }

  /**
   * Filtering a tree whose blocks all get an answer keeps exactly the blocks
   * that lie under no removed block: a removed block takes its whole subtree
   * with it, and nothing else disappears.
   */
  lemma {:induction false} PruneKeepsExactlyUnhidden<E>(b: Block, removed: UsageKey -> Result<bool, E>)
    requires UniqueKeys(b)
    requires forall k :: k in Keys(b) ==> removed(k).Ok?
    ensures Prune(b, removed).Ok?
    ensures forall k :: k in BlockKeys(Prune(b, removed).value) <==> k in Keys(b) && !HiddenBy(b, removed, k)
    decreases b
  {
    if removed(b.key) == Ok(true) {
      forall k | k in Keys(b)
        ensures HiddenBy(b, removed, k)
      {
        assert b in Nodes(b);
      }
    } else {
      PruneAllKeepsExactlyUnhidden(b.children, removed);
      forall k
        ensures HiddenBy(b, removed, k) <==> HiddenByOf(b.children, removed, k)
      {
        if HiddenBy(b, removed, k) {
          var n :| n in Nodes(b) && removed(n.key) == Ok(true) && k in Keys(n);
          assert n in NodesOf(b.children);
        }
        if HiddenByOf(b.children, removed, k) {
          var n :| n in NodesOf(b.children) && removed(n.key) == Ok(true) && k in Keys(n);
          assert n in Nodes(b);
        }
      }
      if HiddenByOf(b.children, removed, b.key) {
        HiddenWithinOf(b.children, removed, b.key);
      }
    }
  }

  lemma {:induction false} PruneAllKeepsExactlyUnhidden<E>(bs: seq<Block>, removed: UsageKey -> Result<bool, E>)
    requires UniqueKeysOf(bs)
    requires forall k :: k in KeysOf(bs) ==> removed(k).Ok?
    ensures PruneAll(bs, removed).Ok?
    ensures forall k :: k in KeysOf(PruneAll(bs, removed).value) <==> k in KeysOf(bs) && !HiddenByOf(bs, removed, k)
    decreases bs
  {
    if bs != [] {
      var first, rest := bs[0], bs[1..];
      PruneKeepsExactlyUnhidden(first, removed);
      PruneAllKeepsExactlyUnhidden(rest, removed);
      var head, tail := Prune(first, removed).value, PruneAll(rest, removed).value;
      var kept := (if head.Some? then [head.value] else []) + tail;
      assert PruneAll(bs, removed) == Ok(kept);
      assert KeysOf(kept) == BlockKeys(head) + KeysOf(tail) by {
        if head.Some? {
          assert kept[0] == head.value && kept[1..] == tail;
        } else {
          assert kept == tail;
        }
      }
      forall k
        ensures HiddenByOf(bs, removed, k) <==> HiddenBy(first, removed, k) || HiddenByOf(rest, removed, k)
      {
        if HiddenByOf(bs, removed, k) {
          var n :| n in NodesOf(bs) && removed(n.key) == Ok(true) && k in Keys(n);
          if n in Nodes(first) {
            assert HiddenBy(first, removed, k);
          } else {
            assert HiddenByOf(rest, removed, k);
          }
        }
        if HiddenBy(first, removed, k) {
          var n :| n in Nodes(first) && removed(n.key) == Ok(true) && k in Keys(n);
          assert n in NodesOf(bs);
        }
        if HiddenByOf(rest, removed, k) {
          var n :| n in NodesOf(rest) && removed(n.key) == Ok(true) && k in Keys(n);
          assert n in NodesOf(bs);
        }
      }
      forall k | HiddenBy(first, removed, k)
        ensures k in Keys(first)
      {
        HiddenWithin(first, removed, k);
      }
      forall k | HiddenByOf(rest, removed, k)
        ensures k in KeysOf(rest)
      {
        HiddenWithinOf(rest, removed, k);
      }
    }
  }

  /** A filter that removes no block of a tree leaves the tree as it is. */
  lemma {:induction false} PruneRemovingNothing<E>(b: Block, removed: UsageKey -> Result<bool, E>)
    requires forall k :: k in Keys(b) ==> removed(k) == Ok(false)
    ensures Prune(b, removed) == Ok(Some(b))
    decreases b
  {
    PruneAllRemovingNothing(b.children, removed);
  }

  lemma {:induction false} PruneAllRemovingNothing<E>(bs: seq<Block>, removed: UsageKey -> Result<bool, E>)
    requires forall k :: k in KeysOf(bs) ==> removed(k) == Ok(false)
    ensures PruneAll(bs, removed) == Ok(bs)
    decreases bs
  {
    if bs != [] {
      PruneRemovingNothing(bs[0], removed);
      PruneAllRemovingNothing(bs[1..], removed);
      assert [bs[0]] + bs[1..] == bs;
    }
  }

  /** Every block that survives filtering is one the filter answered false for. */
  lemma {:induction false} PrunedBlocksPassFilter<E>(b: Block, removed: UsageKey -> Result<bool, E>)
    requires Prune(b, removed).Ok? && Prune(b, removed).value.Some?
    ensures forall k :: k in Keys(Prune(b, removed).value.value) ==> removed(k) == Ok(false)
    decreases b
  {
    PruneAllBlocksPassFilter(b.children, removed);
  }

  lemma {:induction false} PruneAllBlocksPassFilter<E>(bs: seq<Block>, removed: UsageKey -> Result<bool, E>)
    requires PruneAll(bs, removed).Ok?
    ensures forall k :: k in KeysOf(PruneAll(bs, removed).value) ==> removed(k) == Ok(false)
    decreases bs
  {
    if bs != [] {
      var first := Prune(bs[0], removed).value;
      PruneAllBlocksPassFilter(bs[1..], removed);
      if first.Some? {
        PrunedBlocksPassFilter(bs[0], removed);
      }
      var rest := PruneAll(bs[1..], removed).value;
      var kept := (if first.Some? then [first.value] else []) + rest;
      assert PruneAll(bs, removed) == Ok(kept);
      assert KeysOf(kept) == BlockKeys(first) + KeysOf(rest) by {
        if first.Some? {
          assert kept[0] == first.value && kept[1..] == rest;
        } else {
          assert kept == rest;
        }
      }
    }
  }

  /** Filtering is idempotent: applying the same filter to a filtered tree changes nothing. */
  lemma PruneIdempotent<E>(b: Block, removed: UsageKey -> Result<bool, E>)
    requires Prune(b, removed).Ok? && Prune(b, removed).value.Some?
    ensures Prune(Prune(b, removed).value.value, removed) == Prune(b, removed)
  {
    PrunedBlocksPassFilter(b, removed);
    PruneRemovingNothing(Prune(b, removed).value.value, removed);
  }

  /**
   * A filter that removes exactly one block of a tree drops that block's
   * subtree and nothing else.
   */
  lemma PruneRemovesOneSubtree<E>(b: Block, removed: UsageKey -> Result<bool, E>, gone: Block)
    requires UniqueKeys(b) && gone in Nodes(b)
    requires forall k :: k in Keys(b) ==> removed(k) == Ok(k == gone.key)
    ensures Prune(b, removed).Ok?
    ensures BlockKeys(Prune(b, removed).value) == Keys(b) - Keys(gone)
  {
    PruneKeepsExactlyUnhidden(b, removed);
    NodeKeysWithin(b, gone);
    forall k
      ensures HiddenBy(b, removed, k) <==> k in Keys(gone)
    {
      if HiddenBy(b, removed, k) {
        var n :| n in Nodes(b) && removed(n.key) == Ok(true) && k in Keys(n);
        NodeKeysWithin(b, n);
        KeyNamesOneBlock(b, n, gone);
      }
      if k in Keys(gone) {
        assert gone in Nodes(b) && removed(gone.key) == Ok(true);
      }
    }
  }
}
