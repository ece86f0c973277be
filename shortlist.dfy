/**
 * The shortlist page of app/dashboard/shortlist/page.tsx: the rows loaded
 * from the candidate table, the recruiter's own ordering of their ids with
 * the up/down arrows, the "top two" banner, and free-form tags per candidate.
 */
module ShortlistView {
  import opened Wrappers
  import opened Text
  import opened Seqs

  /** A row of the candidate table as the query returns it; absent columns are `None`. */
  datatype DbCandidate = DbCandidate(
    id: nat,
    candidateId: Option<string>,
    candidateName: Option<string>,
    candidateEmail: Option<string>,
    currentRole: Option<string>,
    currentCompany: Option<string>,
    years: Option<nat>,
    score: Option<int>,
    strengths: Option<seq<string>>,
    gaps: Option<seq<string>>,
    recommendation: Option<string>)

  datatype ShortlistedCandidate = ShortlistedCandidate(
    id: string,
    name: string,
    email: string,
    role: string,
    currentCompany: string,
    experience: string,
    score: int,
    skills: seq<string>,
    gaps: seq<string>,
    recommendation: string)

  const MaxSkills: nat := 4
  const MaxSkillLength: nat := 24

  /** `Array.isArray(strengths) ? strengths.slice(0, 4).map(s => s.slice(0, 24)) : []`. */
  function Skills(strengths: Option<seq<string>>): (r: seq<string>)
    ensures strengths.None? ==> r == []
    ensures strengths.Some? ==> |r| == Min(MaxSkills, |strengths.value|)
    ensures strengths.Some? ==> forall i :: 0 <= i < |r| ==>
      r[i] <= strengths.value[i] && |r[i]| == Min(MaxSkillLength, |strengths.value[i]|)
    ensures forall s :: s in r ==> |s| <= MaxSkillLength
  {
    if strengths.None? then []
    else
      var first := Take(strengths.value, MaxSkills);
      var r := seq(|first|, i requires 0 <= i < |first| => Take(first[i], MaxSkillLength));
      assert forall s :: s in r ==> |s| <= MaxSkillLength by {
        forall s | s in r
          ensures |s| <= MaxSkillLength
        {
          var i :| 0 <= i < |r| && r[i] == s;
        }
      }
      r
  }

  /** `years ? years + " yrs" : "—"`: zero years counts as unknown. */
  function Experience(years: Option<nat>): (r: string)
    ensures years.None? || years.value == 0 ==> r == "—"
    ensures years.Some? && years.value != 0 ==> r == NatToString(years.value) + " yrs"
  {
    if years.Some? && years.value != 0 then NatToString(years.value) + " yrs" else "—"
  }

  /** The mapping applied to every fetched row in `load`. */
  function ToRow(c: DbCandidate): (r: ShortlistedCandidate)
    ensures r.skills == Skills(c.strengths)
    ensures c.candidateId.Some? && c.candidateId.value != "" ==> r.id == c.candidateId.value
    ensures c.candidateId.None? || c.candidateId.value == "" ==> r.id == "db_" + NatToString(c.id)
    ensures c.candidateName.None? || c.candidateName.value == "" ==> r.name == "Unknown"
    ensures r.name == Trim(OrElse(c.candidateName, "Unknown"))
    ensures r.email == Trim(OrElse(c.candidateEmail, ""))
    ensures r.role == Trim(OrElse(c.currentRole, "Candidate"))
    ensures r.currentCompany == OrElse(c.currentCompany, "")
    ensures r.experience == Experience(c.years)
    ensures r.score == c.score.GetOr(0)
    ensures r.gaps == c.gaps.GetOr([])
    ensures r.recommendation == OrElse(c.recommendation, "")
  {
    TrimUnchanged("Unknown");
    ShortlistedCandidate(
      OrElse(c.candidateId, "db_" + NatToString(c.id)),
      Trim(OrElse(c.candidateName, "Unknown")),
      Trim(OrElse(c.candidateEmail, "")),
      Trim(OrElse(c.currentRole, "Candidate")),
      OrElse(c.currentCompany, ""),
      Experience(c.years),
      c.score.GetOr(0),
      Skills(c.strengths),
      c.gaps.GetOr([]),
      OrElse(c.recommendation, ""))
  }

  /** Two rows without a `candidate_id` get different fallback ids when their table ids differ. */
  lemma FallbackIdsDistinct(c: DbCandidate, d: DbCandidate)
    requires c.candidateId.None? && d.candidateId.None? && c.id != d.id
    ensures ToRow(c).id != ToRow(d).id
  {
    var p := "db_";
    if ToRow(c).id == ToRow(d).id {
      assert (p + NatToString(c.id))[|p|..] == NatToString(c.id);
      assert (p + NatToString(d.id))[|p|..] == NatToString(d.id);
      NatToStringInjective(c.id, d.id);
    }
  }

  function Rows(data: seq<DbCandidate>): (r: seq<ShortlistedCandidate>)
    ensures |r| == |data| && forall i :: 0 <= i < |data| ==> r[i] == ToRow(data[i])
  {
    seq(|data|, i requires 0 <= i < |data| => ToRow(data[i]))
  }

  function Ids(rows: seq<ShortlistedCandidate>): (r: seq<string>)
    ensures |r| == |rows| && forall i :: 0 <= i < |rows| ==> r[i] == rows[i].id
  {
    if rows == [] then [] else [rows[0].id] + Ids(rows[1..])
  }

  /** `candidates.find(c => c.id === id)`: the first row with that id. */
  function Find(candidates: seq<ShortlistedCandidate>, id: string): (r: Option<ShortlistedCandidate>)
    ensures r.None? <==> forall c :: c in candidates ==> c.id != id
    ensures r.Some? ==> r.value in candidates && r.value.id == id
    ensures r.Some? ==>
      exists i :: 0 <= i < |candidates| && candidates[i] == r.value && forall j :: 0 <= j < i ==> candidates[j].id != id
  {
    if candidates == [] then None
    else if candidates[0].id == id then Some(candidates[0])
    else
      var r := Find(candidates[1..], id);
      FirstIdShift(candidates, id, r);
      r
  }

  /** A first match in the tail is a first match in the whole list when the head has another id. */
  lemma FirstIdShift(candidates: seq<ShortlistedCandidate>, id: string, r: Option<ShortlistedCandidate>)
    requires candidates != [] && candidates[0].id != id
    requires r.Some? ==>
      exists k :: 0 <= k < |candidates[1..]| && candidates[1..][k] == r.value && forall j :: 0 <= j < k ==> candidates[1..][j].id != id
    ensures r.Some? ==>
      exists i :: 0 <= i < |candidates| && candidates[i] == r.value && forall j :: 0 <= j < i ==> candidates[j].id != id
  {
    if r.Some? {
      var k :| 0 <= k < |candidates[1..]| && candidates[1..][k] == r.value && forall j :: 0 <= j < k ==> candidates[1..][j].id != id;
      assert candidates[k + 1] == r.value;
      forall j | 0 <= j < k + 1
        ensures candidates[j].id != id
      {
        if j > 0 { assert candidates[j] == candidates[1..][j - 1]; }
      }
    }
  }

  predicate Known(candidates: seq<ShortlistedCandidate>, id: string) {
    Find(candidates, id).Some?
  }

  /** `order.map(id => find(id)).filter(Boolean)`: the rows in the recruiter's order, unknown ids dropped. */
  function Ordered(order: seq<string>, candidates: seq<ShortlistedCandidate>): (r: seq<ShortlistedCandidate>)
    ensures |r| <= |order|
    ensures forall c :: c in r ==> c in candidates
    ensures forall k :: 0 <= k < |r| ==> Find(candidates, r[k].id) == Some(r[k])
  {
    if order == [] then []
    else
      var f := Find(candidates, order[0]);
      if f.Some? then [f.value] + Ordered(order[1..], candidates) else Ordered(order[1..], candidates)
  }

  /** The listed ids are exactly the ids of `order` that have a row, in the order's sequence. */
  lemma {:induction false} OrderedIds(order: seq<string>, candidates: seq<ShortlistedCandidate>, known: string -> bool)
    requires forall id :: known(id) == Known(candidates, id)
    ensures Ids(Ordered(order, candidates)) == Filter(order, known)
  {
    if order != [] {
      OrderedIds(order[1..], candidates, known);
      var rest := Ordered(order[1..], candidates);
      assert Filter(order, known) == (if known(order[0]) then [order[0]] else []) + Filter(order[1..], known);
      if Known(candidates, order[0]) {
        var f := Find(candidates, order[0]);
        assert Ordered(order, candidates) == [f.value] + rest;
        assert ([f.value] + rest)[1..] == rest;
      } else {
        assert Ordered(order, candidates) == rest;
      }
    }
  }

  /** Ids that are pairwise distinct. */
  predicate DistinctIds(rows: seq<ShortlistedCandidate>) {
    forall i, j :: 0 <= i < j < |rows| ==> rows[i].id != rows[j].id
  }

  lemma {:induction false} FindDistinct(rows: seq<ShortlistedCandidate>, k: nat)
    requires DistinctIds(rows) && k < |rows|
    ensures Find(rows, rows[k].id) == Some(rows[k])
    decreases k
  {
    if k > 0 {
      assert rows[0].id != rows[k].id;
      assert DistinctIds(rows[1..]);
      assert rows[1..][k - 1] == rows[k];
      FindDistinct(rows[1..], k - 1);
    }
  }

  lemma {:induction false} OrderedSuffix(rows: seq<ShortlistedCandidate>, k: nat)
    requires DistinctIds(rows) && k <= |rows|
    ensures Ordered(Ids(rows[k..]), rows) == rows[k..]
    decreases |rows| - k
  {
    if k < |rows| {
      FindDistinct(rows, k);
      assert rows[k..][1..] == rows[k + 1..];
      var ids := Ids(rows[k..]);
      assert ids[0] == rows[k].id && ids[1..] == Ids(rows[k + 1..]);
      OrderedSuffix(rows, k + 1);
      assert Ordered(ids, rows) == [rows[k]] + rows[k + 1..];
    }
  }

  /** Right after loading (order = the loaded ids), the page lists every loaded row in load order. */
  lemma LoadedOrderListsAll(rows: seq<ShortlistedCandidate>)
    requires DistinctIds(rows)
    ensures Ordered(Ids(rows), rows) == rows
  {
    OrderedSuffix(rows, 0);
    assert rows[0..] == rows;
  }

  /** `orderedCandidates.slice(0, 2).map(c => c.name)`. */
  function TopTwo(ordered: seq<ShortlistedCandidate>): (r: seq<string>)
    ensures |r| == Min(2, |ordered|)
    ensures forall i :: 0 <= i < |r| ==> r[i] == ordered[i].name
  {
    var first := Take(ordered, 2);
    seq(|first|, i requires 0 <= i < |first| => first[i].name)
  }

  /** The order after `moveUp(i)`: the entry at `i` trades places with the one above it. */
  function MovedUp(order: seq<string>, i: nat): (r: seq<string>)
    requires i < |order|
    ensures |r| == |order| && multiset(r) == multiset(order)
    ensures i == 0 ==> r == order
    ensures i > 0 ==> r[i - 1] == order[i] && r[i] == order[i - 1]
    ensures forall k :: 0 <= k < |order| && (i == 0 || (k != i - 1 && k != i)) ==> r[k] == order[k]
  {
    if i == 0 then order else Swap(order, i - 1, i)
  }

  /** The order after `moveDown(i)`: the entry at `i` trades places with the one below it. */
  function MovedDown(order: seq<string>, i: nat): (r: seq<string>)
    requires i < |order|
    ensures |r| == |order| && multiset(r) == multiset(order)
    ensures i == |order| - 1 ==> r == order
    ensures i < |order| - 1 ==> r[i] == order[i + 1] && r[i + 1] == order[i]
    ensures forall k :: 0 <= k < |order| && (i == |order| - 1 || (k != i && k != i + 1)) ==> r[k] == order[k]
  {
    if i == |order| - 1 then order else Swap(order, i, i + 1)
  }

  /** Moving an entry up and then moving it back down restores the order. */
  lemma UpThenDownRestores(order: seq<string>, i: nat)
    requires 0 < i < |order|
    ensures MovedDown(MovedUp(order, i), i - 1) == order
  {
    var r := MovedDown(MovedUp(order, i), i - 1);
    assert forall k :: 0 <= k < |order| ==> r[k] == order[k];
  }

  /** Moving an entry down and then moving it back up restores the order. */
  lemma DownThenUpRestores(order: seq<string>, i: nat)
    requires i + 1 < |order|
    ensures MovedUp(MovedDown(order, i), i + 1) == order
  {
    var r := MovedUp(MovedDown(order, i), i + 1);
    assert forall k :: 0 <= k < |order| ==> r[k] == order[k];
  }

  /** `prev[id] || []`: a candidate without tags has the empty list. */
  function TagsOf(tags: map<string, seq<string>>, id: string): seq<string> {
    if id in tags then tags[id] else []
  }

  /** The tags after `addTag(id, tag)`: the old copies of `tag` are filtered out and `tag` goes last. */
  function AfterAddTag(tags: map<string, seq<string>>, id: string, tag: string): (r: map<string, seq<string>>)
    ensures IsBlank(tag) ==> r == tags
    ensures !IsBlank(tag) ==> id in r && r[id] != [] && r[id][|r[id]| - 1] == tag
    ensures !IsBlank(tag) ==>
      forall t :: multiset(r[id])[t] == if t == tag then 1 else multiset(TagsOf(tags, id))[t]
    ensures !IsBlank(tag) ==> r[id] == Filter(TagsOf(tags, id), t => t != tag) + [tag]
    ensures forall k :: k != id ==> (k in r <==> k in tags) && (k in r ==> r[k] == tags[k])
  {
    if IsBlank(tag) then tags
    else
      var kept := Filter(TagsOf(tags, id), t => t != tag);
      FilterCounts(TagsOf(tags, id), t => t != tag);
      assert multiset(kept + [tag]) == multiset(kept) + multiset{tag};
      tags[id := kept + [tag]]
  }

  /** The tags after `removeTag(id, tag)`; the key is written even when it was absent. */
  function AfterRemoveTag(tags: map<string, seq<string>>, id: string, tag: string): (r: map<string, seq<string>>)
    ensures id in r && tag !in r[id]
    ensures r[id] == Filter(TagsOf(tags, id), t => t != tag)
    ensures forall t :: t != tag ==> multiset(r[id])[t] == multiset(TagsOf(tags, id))[t]
    ensures forall k :: k != id ==> (k in r <==> k in tags) && (k in r ==> r[k] == tags[k])
  {
    FilterCounts(TagsOf(tags, id), t => t != tag);
    tags[id := Filter(TagsOf(tags, id), t => t != tag)]
  }

  /** Adding a tag keeps a duplicate-free list duplicate-free. */
  lemma AddTagKeepsNoDuplicates(tags: map<string, seq<string>>, id: string, tag: string)
    requires NoDuplicates(TagsOf(tags, id))
    ensures NoDuplicates(TagsOf(AfterAddTag(tags, id, tag), id))
  {
  }

  /** Adding a tag the candidate already has keeps the same set of tags. */
  lemma AddPresentTagKeepsSet(tags: map<string, seq<string>>, id: string, tag: string)
    requires tag in TagsOf(tags, id)
    ensures forall t :: t in TagsOf(AfterAddTag(tags, id, tag), id) <==> t in TagsOf(tags, id)
  {
    var r := TagsOf(AfterAddTag(tags, id, tag), id);
    forall t
      ensures t in r <==> t in TagsOf(tags, id)
    {
      assert t in r <==> t in multiset(r);
      assert t in TagsOf(tags, id) <==> t in multiset(TagsOf(tags, id));
    }
  }

  /** Removing a freshly added tag gives back the candidate's earlier list. */
  lemma RemoveUndoesAdd(tags: map<string, seq<string>>, id: string, tag: string)
    requires !IsBlank(tag) && tag !in TagsOf(tags, id)
    ensures TagsOf(AfterRemoveTag(AfterAddTag(tags, id, tag), id, tag), id) == TagsOf(tags, id)
  {
    var before := TagsOf(tags, id);
    FilterAll(before, t => t != tag);
    FilterSnoc(before, tag, t => t != tag);
  }

  /** The page's state: the loaded rows, the recruiter's order of their ids, and the tags. */
  class ShortlistPage {
    var candidates: seq<ShortlistedCandidate>
    var order: seq<string>
    var tags: map<string, seq<string>>
    var loading: bool

    constructor ()
      ensures candidates == [] && order == [] && tags == map[] && loading
    {
      candidates, order, tags, loading := [], [], map[], true;
    }

    /** `load` after the query: a non-empty result replaces the rows and resets the order to their ids. */
    method Load(reply: Result<seq<DbCandidate>, string>)
      modifies this`candidates, this`order, this`loading
      ensures !loading
      ensures reply.Ok? && reply.value != [] ==>
        candidates == Rows(reply.value) && order == Ids(candidates)
      ensures !(reply.Ok? && reply.value != []) ==>
        candidates == old(candidates) && order == old(order)
    {
      loading := true;
      if reply.Err? {
        loading := false;
        return;
      }
      if reply.value != [] {
        candidates := Rows(reply.value);
        order := Ids(candidates);
      }
      loading := false;
    }

    function OrderedCandidates(): (r: seq<ShortlistedCandidate>)
      reads this
      ensures r == Ordered(order, candidates)
      ensures forall c :: c in r ==> c in candidates
      ensures forall k :: 0 <= k < |r| ==> Find(candidates, r[k].id) == Some(r[k])
    {
      Ordered(order, candidates)
    }

    /** `moveUp(index)`: swaps on a copy of the order, unless `index` is already the top. */
    method MoveUp(index: nat)
      requires index < |order|
      modifies this`order
      ensures order == MovedUp(old(order), index)
    {
      if index == 0 {
        return;
      }
      var a := new string[|order|](k requires 0 <= k < |order| reads this => order[k]);
      a[index - 1], a[index] := a[index], a[index - 1];
      order := a[..];
    }

    /** `moveDown(index)`: swaps on a copy of the order, unless `index` is already the bottom. */
    method MoveDown(index: nat)
      requires index < |order|
      modifies this`order
      ensures order == MovedDown(old(order), index)
    {
      if index == |order| - 1 {
        return;
      }
      var a := new string[|order|](k requires 0 <= k < |order| reads this => order[k]);
      a[index], a[index + 1] := a[index + 1], a[index];
      order := a[..];
    }

    method AddTag(id: string, tag: string)
      modifies this`tags
      ensures tags == AfterAddTag(old(tags), id, tag)
    {
      if Trim(tag) == [] {
        return;
      }
      var kept := Filter(TagsOf(tags, id), t => t != tag);
      tags := tags[id := kept + [tag]];
    }

    method RemoveTag(id: string, tag: string)
      modifies this`tags
      ensures tags == AfterRemoveTag(old(tags), id, tag)
    {
      tags := tags[id := Filter(TagsOf(tags, id), t => t != tag)];
    }
  }
}
