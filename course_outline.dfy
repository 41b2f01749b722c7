/**
 * The course-outline view's two pieces of logic: flattening the outline
 * block tree into a dictionary from block id to display name, and turning
 * the course's content milestones into the "gated content" dictionary.
 */
module CourseOutline {
  import opened Wrappers

  /** One block of the outline tree: an optional id, a display name and the children in order. */
  datatype Node = Node(id: Option<string>, displayName: string, children: seq<Node>)

  /** Python's `tree.get('id')` is truthy: the id is present and not the empty string. */
  predicate HasId(n: Node) {
    n.id.Some? && n.id.value != ""
  }

  /** The dictionary after one node has been looked at: an id adds or overwrites its entry. */
  function Visit(acc: map<string, string>, n: Node): map<string, string> {
    if HasId(n) then acc[n.id.value := n.displayName] else acc
  }

  /*
   * The dictionary the recursion builds: the node itself, then each child's
   * subtree in list order, all into one accumulator.
   */

  function Collect(t: Node, acc: map<string, string>): map<string, string>
    decreases t, 1
  {
    CollectAll(t.children, Visit(acc, t))
  }

  function CollectAll(ts: seq<Node>, acc: map<string, string>): map<string, string>
    decreases ts, 0
  {
    if ts == [] then acc else Collect(ts[|ts| - 1], CollectAll(ts[..|ts| - 1], acc))
  }

  /*
   * An independent reading of the same dictionary: list the nodes in
   * pre-order and visit them one after another.
   */

  function Preorder(t: Node): seq<Node>
    decreases t, 1
  {
    [t] + PreorderAll(t.children)
  }

  function PreorderAll(ts: seq<Node>): seq<Node>
    decreases ts, 0
  {
    if ts == [] then [] else PreorderAll(ts[..|ts| - 1]) + Preorder(ts[|ts| - 1])
  }

  function Fold(ns: seq<Node>, acc: map<string, string>): map<string, string> {
    if ns == [] then acc else Visit(Fold(ns[..|ns| - 1], acc), ns[|ns| - 1])
  }

  /** The ids a list of nodes contributes. */
  function IdsOf(ns: seq<Node>): set<string> {
    set i | 0 <= i < |ns| && HasId(ns[i]) :: ns[i].id.value
  }

  /** `create_xblock_id_and_name_dict`'s dictionary object; `entries` is its contents. */
  class DisplayNames {
    var entries: map<string, string>

    constructor ()
      ensures entries == map[]
    {
      entries := map[];
    }
  }

  /**
   * Fills `names` (a fresh dictionary when it is null, Python's None) with
   * every block id of the tree and returns that same dictionary.
   */
  method CreateXblockIdAndNameDict(tree: Node, names: DisplayNames?) returns (r: DisplayNames)
    modifies names
    decreases tree
    ensures names != null ==> r == names
    ensures names == null ==> fresh(r)
    ensures r.entries == Collect(tree, if names == null then map[] else old(names.entries))
  {
    if names == null {
      r := new DisplayNames();
    } else {
      r := names;
    }
    if HasId(tree) {
      r.entries := r.entries[tree.id.value := tree.displayName];
    }
    ghost var start := r.entries;
    for i := 0 to |tree.children|
      invariant r.entries == CollectAll(tree.children[..i], start)
    {
      assert tree.children[..i + 1][..i] == tree.children[..i];
      var _ := CreateXblockIdAndNameDict(tree.children[i], r);
    }
    assert tree.children[..|tree.children|] == tree.children;
  }

  // ---------------------------------------------------------------------
  // The recursion visits the nodes in pre-order

  lemma {:induction false} FoldAppend(a: seq<Node>, b: seq<Node>, acc: map<string, string>)
    ensures Fold(a + b, acc) == Fold(b, Fold(a, acc))
    decreases |b|
  {
    if b == [] {
      assert a + b == a;
    } else {
      var b' := b[..|b| - 1];
      assert (a + b)[..|a + b| - 1] == a + b';
      FoldAppend(a, b', acc);
    }
  }

  lemma {:induction false} CollectIsPreorderFold(t: Node, acc: map<string, string>)
    ensures Collect(t, acc) == Fold(Preorder(t), acc)
    decreases t, 1
  {
    CollectAllIsPreorderFold(t.children, Visit(acc, t));
    assert Fold([t], acc) == Visit(acc, t) by {
      assert [t][..0] == [];
    }
    FoldAppend([t], PreorderAll(t.children), acc);
  }

  lemma {:induction false} CollectAllIsPreorderFold(ts: seq<Node>, acc: map<string, string>)
    ensures CollectAll(ts, acc) == Fold(PreorderAll(ts), acc)
    decreases ts, 0
  {
    if ts != [] {
      var init, last := ts[..|ts| - 1], ts[|ts| - 1];
      CollectAllIsPreorderFold(init, acc);
      CollectIsPreorderFold(last, CollectAll(init, acc));
      FoldAppend(PreorderAll(init), Preorder(last), acc);
    }
  }

  // ---------------------------------------------------------------------
  // What the pre-order visit leaves in the dictionary

  lemma {:induction false} FoldKeys(ns: seq<Node>, acc: map<string, string>)
    ensures Fold(ns, acc).Keys == acc.Keys + IdsOf(ns)
    decreases |ns|
  {
    if ns != [] {
      var init, last := ns[..|ns| - 1], ns[|ns| - 1];
      FoldKeys(init, acc);
      assert IdsOf(ns) == IdsOf(init) + (if HasId(last) then {last.id.value} else {}) by {
        forall k | k in IdsOf(ns) ensures k in IdsOf(init) || (HasId(last) && k == last.id.value) {
          var i :| 0 <= i < |ns| && HasId(ns[i]) && ns[i].id.value == k;
          if i < |init| { assert init[i] == ns[i]; }
        }
        forall k | k in IdsOf(init) ensures k in IdsOf(ns) {
          var i :| 0 <= i < |init| && HasId(init[i]) && init[i].id.value == k;
          assert ns[i] == init[i];
        }
        if HasId(last) { assert ns[|ns| - 1] == last; }
      }
    }
  }

  lemma {:induction false} FoldLastWins(ns: seq<Node>, acc: map<string, string>, j: nat)
    requires j < |ns| && HasId(ns[j])
    requires forall i :: j < i < |ns| ==> !(HasId(ns[i]) && ns[i].id.value == ns[j].id.value)
    ensures ns[j].id.value in Fold(ns, acc)
    ensures Fold(ns, acc)[ns[j].id.value] == ns[j].displayName
    decreases |ns|
  {
    var init, last := ns[..|ns| - 1], ns[|ns| - 1];
    if j < |ns| - 1 {
      assert init[j] == ns[j];
      forall i | j < i < |init| ensures !(HasId(init[i]) && init[i].id.value == init[j].id.value) {
        assert init[i] == ns[i];
      }
      FoldLastWins(init, acc, j);
    }
  }

  lemma {:induction false} FoldKeeps(ns: seq<Node>, acc: map<string, string>, k: string)
    requires k in acc && k !in IdsOf(ns)
    ensures k in Fold(ns, acc) && Fold(ns, acc)[k] == acc[k]
    decreases |ns|
  {
    if ns != [] {
      var init := ns[..|ns| - 1];
      assert k !in IdsOf(init) by {
        forall i | 0 <= i < |init| && HasId(init[i]) ensures init[i].id.value != k {
          assert ns[i] == init[i];
        }
      }
      FoldKeeps(init, acc, k);
      assert !(HasId(ns[|ns| - 1]) && ns[|ns| - 1].id.value == k);
    }
  }

  /** The dictionary's keys are the ones it started with plus every id in the tree. */
  lemma NamesKeys(t: Node, acc: map<string, string>)
    ensures Collect(t, acc).Keys == acc.Keys + IdsOf(Preorder(t))
  {
    CollectIsPreorderFold(t, acc);
    FoldKeys(Preorder(t), acc);
  }

  /**
   * An id maps to the display name of the last node carrying it in
   * pre-order (children in list order).
   */
  lemma NamesLastVisitedWins(t: Node, acc: map<string, string>, j: nat)
    requires j < |Preorder(t)| && HasId(Preorder(t)[j])
    requires forall i :: j < i < |Preorder(t)| ==>
      !(HasId(Preorder(t)[i]) && Preorder(t)[i].id.value == Preorder(t)[j].id.value)
    ensures Preorder(t)[j].id.value in Collect(t, acc)
    ensures Collect(t, acc)[Preorder(t)[j].id.value] == Preorder(t)[j].displayName
  {
    CollectIsPreorderFold(t, acc);
    FoldLastWins(Preorder(t), acc, j);
  }

  /** An entry of the passed-in dictionary survives unless some tree id overwrites it. */
  lemma NamesKeepsEarlierEntries(t: Node, acc: map<string, string>, k: string)
    requires k in acc && k !in IdsOf(Preorder(t))
    ensures k in Collect(t, acc) && Collect(t, acc)[k] == acc[k]
  {
    CollectIsPreorderFold(t, acc);
    FoldKeeps(Preorder(t), acc, k);
  }

  /** A node without a (non-empty) id adds no entry, yet every id below it does. */
  lemma IdlessNodeStillVisitsChildren(t: Node, acc: map<string, string>)
    requires !HasId(t)
    ensures Collect(t, acc).Keys == acc.Keys + IdsOf(PreorderAll(t.children))
  {
    NamesKeys(t, acc);
    var ns := Preorder(t);
    assert ns[1..] == PreorderAll(t.children);
    forall k | k in IdsOf(ns) ensures k in IdsOf(ns[1..]) {
      var i :| 0 <= i < |ns| && HasId(ns[i]) && ns[i].id.value == k;
      assert i != 0;
      assert ns[1..][i - 1] == ns[i];
    }
    forall k | k in IdsOf(ns[1..]) ensures k in IdsOf(ns) {
      var i :| 0 <= i < |ns[1..]| && HasId(ns[1..][i]) && ns[1..][i].id.value == k;
      assert ns[i + 1] == ns[1..][i];
    }
  }

  // ---------------------------------------------------------------------
  // `_get_key_of_prerequisite`: re.sub('.gating', '', namespace)

  /**
   * The pattern `.gating` matches at `p`: the regex `.` is any character
   * but a newline, followed by the literal `gating`.
   */
  predicate MatchAt(s: string, p: nat) {
    p + 7 <= |s| && s[p] != '\n' && s[p + 1..p + 7] == "gating"
  }

  predicate NoMatch(s: string) {
    forall p: nat :: p < |s| ==> !MatchAt(s, p)
  }

  /** Removes the non-overlapping matches found scanning left to right. */
  function StripGating(s: string): (r: string)
    ensures |r| <= |s| && (|s| - |r|) % 7 == 0
    decreases |s|
  {
    if MatchAt(s, 0) then StripGating(s[7..])
    else if s == [] then []
    else [s[0]] + StripGating(s[1..])
  }

  /** A namespace without any match is returned unchanged. */
  lemma {:induction false} StripGatingNoMatch(s: string)
    requires NoMatch(s)
    ensures StripGating(s) == s
    decreases |s|
  {
    if s != [] {
      assert !MatchAt(s, 0);
      forall p: nat | p < |s[1..]| ensures !MatchAt(s[1..], p) {
        assert !MatchAt(s, p + 1);
        if p + 7 <= |s[1..]| {
          assert s[1..][p] == s[p + 1];
          assert s[1..][p + 1..p + 7] == s[p + 2..p + 8];
        }
      }
      StripGatingNoMatch(s[1..]);
    }
  }

  /** Appending ".gating" to any key adds exactly one match and nothing else. */
  lemma {:induction false} StripGatingSuffix(k: string)
    ensures StripGating(k + ".gating") == StripGating(k)
    decreases |k|
  {
    var s := k + ".gating";
    if k == [] {
      assert s == ".gating";
      assert MatchAt(s, 0);
      assert s[7..] == [];
    } else if MatchAt(k, 0) {
      assert s[1..7] == k[1..7];
      assert s[7..] == k[7..] + ".gating";
      StripGatingSuffix(k[7..]);
    } else {
      assert !MatchAt(s, 0) by {
        if |k| >= 7 {
          assert s[0] == k[0] && s[1..7] == k[1..7];
        } else {
          assert s[1..7][|k| - 1] == s[|k|] == '.';
        }
      }
      assert s[1..] == k[1..] + ".gating";
      StripGatingSuffix(k[1..]);
    }
  }

  /** The usual namespace `<key>.gating` yields back its key. */
  lemma PrerequisiteOfGatingNamespace(k: string)
    requires NoMatch(k)
    ensures StripGating(k + ".gating") == k
  {
    StripGatingSuffix(k);
    StripGatingNoMatch(k);
  }

  /**
   * The `.` of the pattern is a wildcard: a key that itself is a character
   * followed by `gating` loses that too, so the prerequisite of a block
   * such as `ygating` comes out empty.
   */
  lemma WildcardStripsKeyItself(c: char)
    requires c != '\n'
    ensures StripGating([c] + "gating" + ".gating") == ""
  {
  }

  // ---------------------------------------------------------------------
  // `get_content_milestones` and `get_content_milestones_old`

  datatype Milestone = Milestone(contentId: string, namespace: string)

  /** A gated block's entry: are its prerequisites met, and which block is the prerequisite. */
  datatype GatedContent = GatedContent(completedPrereqs: bool, prerequisite: string)

  /** The old view's entry, without the prerequisite. */
  datatype OldGatedContent = OldGatedContent(completedPrereqs: bool)

  function ContentIds(ms: seq<Milestone>): set<string> {
    set i | 0 <= i < |ms| :: ms[i].contentId
  }

  lemma ContentIdsSnoc(ms: seq<Milestone>)
    requires ms != []
    ensures ContentIds(ms) == ContentIds(ms[..|ms| - 1]) + {ms[|ms| - 1].contentId}
  {
  }

  /** The dict comprehension over all milestones, in order, so a repeated content id keeps the last one. */
  function Gated(ms: seq<Milestone>, uncompleted: set<string>): (r: map<string, GatedContent>)
    ensures r.Keys == ContentIds(ms)
    ensures forall k :: k in r ==> (r[k].completedPrereqs <==> k !in uncompleted)
  {
    if ms == [] then map[]
    else
      var m := ms[|ms| - 1];
      ContentIdsSnoc(ms);
      Gated(ms[..|ms| - 1], uncompleted)[m.contentId := GatedContent(m.contentId !in uncompleted, StripGating(m.namespace))]
  }

  function GatedOld(ms: seq<Milestone>, uncompleted: set<string>): (r: map<string, OldGatedContent>)
    ensures r.Keys == ContentIds(ms)
    ensures forall k :: k in r ==> (r[k].completedPrereqs <==> k !in uncompleted)
  {
    if ms == [] then map[]
    else
      var m := ms[|ms| - 1];
      ContentIdsSnoc(ms);
      GatedOld(ms[..|ms| - 1], uncompleted)[m.contentId := OldGatedContent(m.contentId !in uncompleted)]
  }

  /**
   * `all` is the course's milestone list, `userMilestones` the ones the
   * learner has not yet completed.
   */
  function GetContentMilestones(all: seq<Milestone>, userMilestones: seq<Milestone>): (r: map<string, GatedContent>)
    ensures r.Keys == ContentIds(all)
    ensures forall k :: k in r ==> (r[k].completedPrereqs <==> k !in ContentIds(userMilestones))
  {
    Gated(all, ContentIds(userMilestones))
  }

  function GetContentMilestonesOld(all: seq<Milestone>, userMilestones: seq<Milestone>): (r: map<string, OldGatedContent>)
    ensures r.Keys == ContentIds(all)
    ensures forall k :: k in r ==> (r[k].completedPrereqs <==> k !in ContentIds(userMilestones))
  {
    GatedOld(all, ContentIds(userMilestones))
  }

  lemma {:induction false} GatedLastWins(ms: seq<Milestone>, uncompleted: set<string>, j: nat)
    requires j < |ms|
    requires forall i :: j < i < |ms| ==> ms[i].contentId != ms[j].contentId
    ensures Gated(ms, uncompleted)[ms[j].contentId].prerequisite == StripGating(ms[j].namespace)
    decreases |ms|
  {
    var init := ms[..|ms| - 1];
    if j < |ms| - 1 {
      assert init[j] == ms[j];
      forall i | j < i < |init| ensures init[i].contentId != init[j].contentId {
        assert init[i] == ms[i];
      }
      GatedLastWins(init, uncompleted, j);
    }
  }

  /** A repeated content id takes its prerequisite from the last milestone naming it. */
  lemma PrerequisiteFromLastMilestone(all: seq<Milestone>, userMilestones: seq<Milestone>, j: nat)
    requires j < |all|
    requires forall i :: j < i < |all| ==> all[i].contentId != all[j].contentId
    ensures GetContentMilestones(all, userMilestones)[all[j].contentId].prerequisite == StripGating(all[j].namespace)
  {
    GatedLastWins(all, ContentIds(userMilestones), j);
  }

  /** The old view has the same keys and the same completion flags as the new one. */
  lemma OldMilestonesAgree(all: seq<Milestone>, userMilestones: seq<Milestone>)
    ensures GetContentMilestonesOld(all, userMilestones).Keys == GetContentMilestones(all, userMilestones).Keys
    ensures forall k :: k in GetContentMilestones(all, userMilestones) ==>
      GetContentMilestonesOld(all, userMilestones)[k].completedPrereqs == GetContentMilestones(all, userMilestones)[k].completedPrereqs
  {
  }
}
