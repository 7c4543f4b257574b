/** Client view records: per namespace, the id -> version map of everything a
    client group was told about in one pull, and the diff between two of them.
    `server/src/lib/cvr.ts` is not modelled; these definitions are
    assumptions that match how pull.ts uses `puts` and `dels`. */
module Cvr {
  import opened Data

  /** id -> row version within one namespace. */
  type Entries = map<string, int>

  /** namespace -> entries. */
  type CVR = map<string, Entries>

  /** The ids to (re)send and the ids to delete in one namespace. */
  datatype NamespaceDiff = NamespaceDiff(puts: set<string>, dels: set<string>)

  type CVRDiff = map<string, NamespaceDiff>

  const NoChange := NamespaceDiff({}, {})

  /** Builds the id -> version map of one namespace from its search results. */
  function CvrEntriesFromSearch(rs: set<SearchResult>): (e: Entries)
    requires UniqueIds(rs)
    ensures e.Keys == set r | r in rs :: r.id
    ensures forall r | r in rs :: e[r.id] == r.rowVersion
  {
    map r | r in rs :: r.id := r.rowVersion
  }

  /** A namespace absent from a CVR holds nothing. */
  function EntriesOf(c: CVR, ns: string): Entries {
    if ns in c then c[ns] else map[]
  }

  /** Puts: ids of `next` that `base` lacks or holds at another version.
      Dels: ids of `base` that `next` lacks. */
  function DiffEntries(base: Entries, next: Entries): NamespaceDiff {
    NamespaceDiff(
      set id | id in next && (id !in base || base[id] != next[id]),
      set id | id in base && id !in next)
  }

  /** The diff of every namespace either record mentions. */
  function DiffCVR(base: CVR, next: CVR): (d: CVRDiff)
    ensures d.Keys == base.Keys + next.Keys
    ensures forall ns | ns in d :: d[ns].puts <= EntriesOf(next, ns).Keys
    ensures forall ns | ns in d :: d[ns].dels !! EntriesOf(next, ns).Keys
  {
    map ns | ns in base.Keys + next.Keys :: DiffEntries(EntriesOf(base, ns), EntriesOf(next, ns))
  }

  /** The diff of one namespace; a namespace the diff does not mention has no change. */
  function DiffOf(d: CVRDiff, ns: string): NamespaceDiff {
    if ns in d then d[ns] else NoChange
  }

  predicate IsCVRDiffEmpty(d: CVRDiff) {
    forall ns | ns in d :: d[ns].puts == {} && d[ns].dels == {}
  }

  /** The entries a client holds after deleting `dels` from `base` and
      storing the versions of `next` for `puts`. */
  function Patched(base: Entries, diff: NamespaceDiff, next: Entries): Entries
    requires diff.puts <= next.Keys
  {
    map id | id in (base.Keys - diff.dels) + diff.puts :: if id in diff.puts then next[id] else base[id]
  }

  /** Applying the diff to what the client held yields exactly the new view:
      the diff is complete. */
  lemma DiffThenPatchIsNext(base: Entries, next: Entries)
    ensures DiffEntries(base, next).puts <= next.Keys
    ensures Patched(base, DiffEntries(base, next), next) == next
  {
    var d := DiffEntries(base, next);
    var p := Patched(base, d, next);
    assert p.Keys == next.Keys;
    forall id | id in next ensures p[id] == next[id] {
      if id !in d.puts {
        assert id in base && base[id] == next[id];
      }
    }
  }

  /** A diff is empty exactly when the two records hold the same entries in every namespace. */
  lemma DiffEmptyIff(base: CVR, next: CVR)
    ensures IsCVRDiffEmpty(DiffCVR(base, next)) <==> forall ns :: EntriesOf(base, ns) == EntriesOf(next, ns)
  {
    var d := DiffCVR(base, next);
    if IsCVRDiffEmpty(d) {
      forall ns ensures EntriesOf(base, ns) == EntriesOf(next, ns) {
        if ns in d {
          DiffThenPatchIsNext(EntriesOf(base, ns), EntriesOf(next, ns));
          assert Patched(EntriesOf(base, ns), d[ns], EntriesOf(next, ns)) == EntriesOf(base, ns);
        }
      }
    } else {
      var ns :| ns in d && (d[ns].puts != {} || d[ns].dels != {});
      if d[ns].puts != {} {
        var id :| id in d[ns].puts;
        assert id in EntriesOf(next, ns);
      } else {
        var id :| id in d[ns].dels;
        assert id !in EntriesOf(next, ns);
      }
      assert EntriesOf(base, ns) != EntriesOf(next, ns);
    }
  }

  /** Against an empty base every entry of the new view is a put and nothing is deleted. */
  lemma DiffFromNothing(next: CVR, ns: string)
    ensures DiffOf(DiffCVR(map[], next), ns) == NamespaceDiff(EntriesOf(next, ns).Keys, {})
  {
    var d := DiffOf(DiffCVR(map[], next), ns);
    assert d.puts == EntriesOf(next, ns).Keys;
  }
}
