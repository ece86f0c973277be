/**
 * The candidates page of app/dashboard/candidates/page.tsx: the projection
 * of a raw ranked candidate into a table row, the filtered and sorted view,
 * the sort-toggle state machine, the per-row status override, the checks
 * before a scoring request and the handling of its reply, and the file
 * pickers' add/remove.
 */
module Candidates {
  import opened Wrappers
  import opened Text
  import opened Seqs

  datatype Status = Shortlisted | Review | Rejected

  /**
   * A ranked candidate as the scoring workflow returns it. Every field is
   * optional; `score` is None when the value is missing or not a number.
   */
  datatype RankedCandidate = RankedCandidate(
    candidateId: Option<string>,
    candidateName: Option<string>,
    candidateEmail: Option<string>,
    currentRole: Option<string>,
    score: Option<int>,
    summary: Option<string>,
    strengths: Option<seq<string>>,
    gaps: Option<seq<string>>,
    recommendation: Option<string>)

  datatype CandidateRow = CandidateRow(
    id: string,
    name: string,
    email: string,
    role: string,
    experience: string,
    score: int,
    skills: seq<string>,
    status: Status,
    aiExplanation: string,
    summary: string,
    raw: RankedCandidate)

  const PlaceholderSkills: seq<string> := ["Resume parsed", "JD match"]
  const DefaultExplanation: string := "AI assessed this candidate based on JD match and resume signals."
  const MaxSkills: nat := 6
  const MaxSkillLength: nat := 22

  /** The status thresholds: above 85 shortlisted, above 70 review, else rejected. */
  function StatusForScore(score: int): (s: Status)
    ensures s.Shortlisted? <==> score > 85
    ensures s.Review? <==> 70 < score <= 85
    ensures s.Rejected? <==> score <= 70
  {
    if score > 85 then Shortlisted else if score > 70 then Review else Rejected
  }

  function StatusRank(s: Status): nat {
    match s
    case Rejected => 0
    case Review => 1
    case Shortlisted => 2
  }

  /** A higher score never earns a worse status. */
  lemma StatusMonotone(a: int, b: int)
    requires a <= b
    ensures StatusRank(StatusForScore(a)) <= StatusRank(StatusForScore(b))
  {
  }

  /** The first six strengths, each cut to 22 characters; the placeholders when there are none. */
  function Skills(strengths: Option<seq<string>>): (r: seq<string>)
    ensures 1 <= |r| <= MaxSkills
    ensures forall i :: 0 <= i < |r| ==> |r[i]| <= MaxSkillLength
    ensures (strengths.None? || strengths.value == []) ==> r == PlaceholderSkills
    ensures strengths.Some? && strengths.value != [] ==>
      && |r| == Min(MaxSkills, |strengths.value|)
      && forall i :: 0 <= i < |r| ==> r[i] == Take(strengths.value[i], MaxSkillLength)
  {
    var kept := if strengths.Some? then Take(strengths.value, MaxSkills) else [];
    var cut := seq(|kept|, i requires 0 <= i < |kept| => Take(kept[i], MaxSkillLength));
    if |cut| > 0 then cut else PlaceholderSkills
  }

  /** The explanation line: the first gap, else the recommendation, else the stock sentence. */
  function Explanation(gaps: Option<seq<string>>, recommendation: Option<string>): (r: string)
    ensures gaps.Some? && gaps.value != [] ==> r == "Top gap: " + gaps.value[0]
    ensures (gaps.None? || gaps.value == []) && recommendation.Some? && recommendation.value != "" ==>
      r == "Recommendation: " + recommendation.value
    ensures (gaps.None? || gaps.value == []) && (recommendation.None? || recommendation.value == "") ==>
      r == DefaultExplanation
  {
    if gaps.Some? && |gaps.value| > 0 then "Top gap: " + gaps.value[0]
    else if recommendation.Some? && recommendation.value != "" then "Recommendation: " + recommendation.value
    else DefaultExplanation
  }

  /** The id a row gets when the candidate carries none. */
  function GeneratedId(idx: nat): string {
    "cand_" + NatToString(idx)
  }

  /** `toCandidateRow(rc, idx)`. */
  function ToCandidateRow(rc: RankedCandidate, idx: nat): (row: CandidateRow)
    ensures row.id == OrElse(rc.candidateId, GeneratedId(idx))
    ensures row.name == Trim(OrElse(rc.candidateName, "Candidate " + NatToString(idx + 1)))
    ensures row.score == rc.score.GetOr(0)
    ensures row.status == StatusForScore(row.score)
    ensures rc.score.None? ==> row.status.Rejected?
    ensures 1 <= |row.skills| <= MaxSkills && forall i :: 0 <= i < |row.skills| ==> |row.skills[i]| <= MaxSkillLength
    ensures row.email != ""
    ensures Trim(OrElse(rc.candidateEmail, "")) != "" ==> row.email == Trim(OrElse(rc.candidateEmail, ""))
    ensures Trim(OrElse(rc.candidateEmail, "")) == "" ==> row.email == Lower(FirstWord(row.name)) + "@example.com"
    ensures row.role == Trim(OrElse(rc.currentRole, "Candidate"))
    ensures row.skills == Skills(rc.strengths)
    ensures row.aiExplanation == Explanation(rc.gaps, rc.recommendation)
    ensures row.experience == "—" && row.summary == OrElse(rc.summary, "—") && row.raw == rc
  {
    var name := Trim(OrElse(rc.candidateName, "Candidate " + NatToString(idx + 1)));
    var email := Trim(OrElse(rc.candidateEmail, ""));
    var score := if rc.score.Some? then rc.score.value else 0;
    CandidateRow(
      OrElse(rc.candidateId, GeneratedId(idx)),
      name,
      if email != "" then email else Lower(FirstWord(name)) + "@example.com",
      Trim(OrElse(rc.currentRole, "Candidate")),
      "—",
      score,
      Skills(rc.strengths),
      StatusForScore(score),
      Explanation(rc.gaps, rc.recommendation),
      OrElse(rc.summary, "—"),
      rc)
  }

  /** `ranked.map(toCandidateRow)`: the row at position i is built with index i. */
  function Rows(ranked: seq<RankedCandidate>): (rows: seq<CandidateRow>)
    ensures |rows| == |ranked|
    ensures forall i :: 0 <= i < |ranked| ==> rows[i] == ToCandidateRow(ranked[i], i)
  {
    seq(|ranked|, i requires 0 <= i < |ranked| => ToCandidateRow(ranked[i], i))
  }

  lemma {:induction false} GeneratedIdInjective(i: nat, j: nat)
    requires GeneratedId(i) == GeneratedId(j)
    ensures i == j
  {
    var p := "cand_";
    assert NatToString(i) == GeneratedId(i)[|p|..];
    assert NatToString(j) == GeneratedId(j)[|p|..];
    NatToStringInjective(i, j);
  }

  /** Candidates that come without an id get pairwise different generated ids. */
  lemma GeneratedIdsDistinct(ranked: seq<RankedCandidate>, i: nat, j: nat)
    requires i < j < |ranked|
    requires OrElse(ranked[i].candidateId, "") == "" && OrElse(ranked[j].candidateId, "") == ""
    ensures Rows(ranked)[i].id != Rows(ranked)[j].id
  {
    if Rows(ranked)[i].id == Rows(ranked)[j].id {
      GeneratedIdInjective(i, j);
    }
  }

  datatype StatusFilter = All | Only(status: Status)
  datatype SortField = ByScore | ByName
  datatype SortDir = Asc | Desc

  /** The filter callback: the status filter (unless "all"), then the case-insensitive name search. */
  predicate Matches(row: CandidateRow, filter: StatusFilter, query: string) {
    && (filter.All? || row.status == filter.status)
    && (query == "" || Contains(Lower(row.name), Lower(query)))
  }

  /** `cmp(a, b) <= 0` for the comparator of the chosen field and direction. */
  function RowLe(field: SortField, dir: SortDir): (CandidateRow, CandidateRow) -> bool {
    match (field, dir)
    case (ByScore, Desc) => (a: CandidateRow, b: CandidateRow) => b.score <= a.score
    case (ByScore, Asc) => (a: CandidateRow, b: CandidateRow) => a.score <= b.score
    case (ByName, Desc) => (a: CandidateRow, b: CandidateRow) => LexLe(b.name, a.name)
    case (ByName, Asc) => (a: CandidateRow, b: CandidateRow) => LexLe(a.name, b.name)
  }

  lemma RowLeIsTotalPreorder(field: SortField, dir: SortDir)
    ensures IsTotalPreorder(RowLe(field, dir))
  {
    var le := RowLe(field, dir);
    if field.ByName? {
      forall a: CandidateRow, b: CandidateRow
        ensures le(a, b) || le(b, a)
      {
        LexLeTotal(a.name, b.name);
      }
      forall a: CandidateRow, b: CandidateRow, c: CandidateRow | le(a, b) && le(b, c)
        ensures le(a, c)
      {
        if dir.Asc? {
          LexLeTransitive(a.name, b.name, c.name);
        } else {
          LexLeTransitive(c.name, b.name, a.name);
        }
      }
    }
  }

  /** The `filtered` memo: the matching rows, sorted by the chosen comparator. */
  function Filtered(rows: seq<CandidateRow>, filter: StatusFilter, query: string, field: SortField, dir: SortDir)
    : (r: seq<CandidateRow>)
    ensures forall x :: x in r <==> x in rows && Matches(x, filter, query)
    ensures multiset(r) == multiset(Filter(rows, x => Matches(x, filter, query)))
    ensures SortedBy(r, RowLe(field, dir))
    ensures field.ByScore? && dir.Desc? ==> forall i, j :: 0 <= i < j < |r| ==> r[i].score >= r[j].score
    ensures field.ByScore? && dir.Asc? ==> forall i, j :: 0 <= i < j < |r| ==> r[i].score <= r[j].score
  {
    RowLeIsTotalPreorder(field, dir);
    var kept := Filter(rows, x => Matches(x, filter, query));
    var r := SortBy(kept, RowLe(field, dir));
    SameElements(r, kept);
    r
  }

  /** With every status and an empty search the view is a reordering of all rows. */
  lemma UnfilteredIsPermutation(rows: seq<CandidateRow>, field: SortField, dir: SortDir)
    ensures multiset(Filtered(rows, All, "", field, dir)) == multiset(rows)
  {
    FilterAll(rows, x => Matches(x, All, ""));
  }

  /** Sorting by score is stable: rows with the same score keep their list order in the view. */
  lemma EqualScoresKeepListOrder(rows: seq<CandidateRow>, dir: SortDir, score: int, p: CandidateRow -> bool)
    requires forall y :: p(y) == (y.score == score)
    ensures Filter(Filtered(rows, All, "", ByScore, dir), p) == Filter(rows, p)
  {
    RowLeIsTotalPreorder(ByScore, dir);
    FilterAll(rows, x => Matches(x, All, ""));
    SortByStable(rows, RowLe(ByScore, dir), p);
  }

  /** `toggleSort(field)`: the same field flips the direction, another field is selected descending. */
  function Toggled(current: SortField, dir: SortDir, field: SortField): (r: (SortField, SortDir))
    ensures r.0 == field
    ensures field == current ==> r.1 != dir
    ensures field != current ==> r.1 == Desc
  {
    if current == field then (field, if dir.Asc? then Desc else Asc) else (field, Desc)
  }

  /** Clicking the same column twice restores the direction. */
  lemma ToggleTwice(current: SortField, dir: SortDir)
    ensures var t := Toggled(current, dir, current); Toggled(t.0, t.1, current) == (current, dir)
  {
  }

  /** `setStatus(id, status)`: every row with that id gets the status; nothing else changes. */
  function WithStatus(rows: seq<CandidateRow>, id: string, status: Status): (r: seq<CandidateRow>)
    ensures |r| == |rows|
    ensures forall i :: 0 <= i < |rows| ==> r[i].status == (if rows[i].id == id then status else rows[i].status)
    ensures forall i :: 0 <= i < |rows| ==> r[i].(status := rows[i].status) == rows[i]
  {
    seq(|rows|, i requires 0 <= i < |rows| => if rows[i].id == id then rows[i].(status := status) else rows[i])
  }

  /** Setting the same status twice is the same as once. */
  lemma WithStatusIdempotent(rows: seq<CandidateRow>, id: string, status: Status)
    ensures WithStatus(WithStatus(rows, id, status), id, status) == WithStatus(rows, id, status)
  {
  }

  datatype File = File(name: string, size: nat)

  /**
   * What the file picker hands to `onChange`: nothing when no file was
   * picked, else the old files plus the picked ones, or only the first
   * picked one for a single-file picker.
   */
  function Picked(multiple: bool, files: seq<File>, picked: seq<File>): (r: Option<seq<File>>)
    ensures r.None? <==> picked == []
    ensures r.Some? && multiple ==> r.value == files + picked
    ensures r.Some? && !multiple ==> r.value == [picked[0]]
  {
    if picked == [] then None else if multiple then Some(files + picked) else Some([picked[0]])
  }

  /** `files.filter((_, i) => i !== idx)`. */
  function RemoveAt(files: seq<File>, idx: int): (r: seq<File>)
    ensures 0 <= idx < |files| ==> r == files[..idx] + files[idx + 1..]
    ensures !(0 <= idx < |files|) ==> r == files
    decreases |files|
  {
    if files == [] then []
    else (if idx == 0 then [] else [files[0]]) + RemoveAt(files[1..], idx - 1)
  }

  const NoJdMessage: string := "Please upload a JD file first."
  const NoResumeMessage: string := "Please upload at least 1 resume (3–5 recommended)."
  const EmptyReplyMessage: string := "Server returned empty response — check n8n workflow is active"
  const NoRankedMessage: string := "No ranked_candidates returned — check n8n Respond to Webhook node"

  /**
   * The reply body. `NotJson` is a body `JSON.parse` rejects; `Json` holds
   * the fields the handler reads (missing in a non-object body); `ranked`
   * is None when `ranked_candidates` is missing or not an array.
   */
  datatype Body = NotJson | Json(error: Option<string>, message: Option<string>, ranked: Option<seq<RankedCandidate>>)

  /** How the scoring request ended: `fetch` threw with a message, or a reply with its status and text. */
  datatype ScoringReply = FetchFailed(reason: string) | Replied(ok: bool, status: nat, rawText: string, body: Body)

  /** The ranked list a reply yields, or the message the handler reports for it. */
  function ReplyResult(reply: ScoringReply): (r: Result<seq<RankedCandidate>, string>)
    ensures r.Ok? <==>
      && reply.Replied? && !IsBlank(reply.rawText) && reply.body.Json? && reply.ok
      && reply.body.ranked.Some? && reply.body.ranked.value != []
    ensures r.Ok? ==> r.value == reply.body.ranked.value && r.value != []
    ensures reply.Replied? && IsBlank(reply.rawText) ==> r == Err(EmptyReplyMessage)
    ensures reply.Replied? && !IsBlank(reply.rawText) && reply.body.NotJson? ==>
      r == Err("Server returned non-JSON: " + Take(reply.rawText, 200))
    ensures reply.Replied? && !IsBlank(reply.rawText) && reply.body.Json? && !reply.ok ==>
      r == Err(OrElse(reply.body.error, OrElse(reply.body.message, "Request failed with status " + NatToString(reply.status))))
    ensures (reply.Replied? && !IsBlank(reply.rawText) && reply.body.Json? && reply.ok
             && (reply.body.ranked.None? || reply.body.ranked.value == [])) ==> r == Err(NoRankedMessage)
    ensures reply.FetchFailed? ==> r == Err(reply.reason)
    ensures r.Err? && reply.Replied? ==> r.error != ""
  {
    match reply
    case FetchFailed(reason) => Err(reason)
    case Replied(ok, status, rawText, body) =>
      if Trim(rawText) == [] then Err(EmptyReplyMessage)
      else if body.NotJson? then Err("Server returned non-JSON: " + Take(rawText, 200))
      else if !ok then Err(OrElse(body.error, OrElse(body.message, "Request failed with status " + NatToString(status))))
      else if body.ranked.None? || body.ranked.value == [] then Err(NoRankedMessage)
      else Ok(body.ranked.value)
  }

  /** The value the start-up effect reads back: the stored ranked list, if any and non-empty. */
  function LoadedRows(stored: Option<seq<RankedCandidate>>): (rows: seq<CandidateRow>)
    ensures stored.Some? ==> rows == Rows(stored.value)
    ensures stored.None? ==> rows == []
  {
    if stored.Some? && |stored.value| > 0 then Rows(stored.value) else []
  }

  class CandidatesPage {
    var searchQuery: string
    var statusFilter: StatusFilter
    var sortField: SortField
    var sortDir: SortDir
    var jdFile: Option<File>
    var resumeFiles: seq<File>
    var isScoring: bool
    var scoreError: Option<string>
    var candidateRows: seq<CandidateRow>
    var showUpload: bool
    /** The ranked list kept in localStorage under the page's key. */
    var stored: Option<seq<RankedCandidate>>

    /** The page mounting: initial state, then the effect that loads the stored ranking. */
    constructor (stored0: Option<seq<RankedCandidate>>)
      ensures searchQuery == "" && statusFilter == All && sortField == ByScore && sortDir == Desc
      ensures jdFile == None && resumeFiles == [] && !isScoring && scoreError == None && !showUpload
      ensures stored == stored0 && candidateRows == LoadedRows(stored0)
    {
      searchQuery, statusFilter, sortField, sortDir := "", All, ByScore, Desc;
      jdFile, resumeFiles, isScoring, scoreError := None, [], false, None;
      candidateRows, showUpload, stored := [], false, stored0;
      new;
      if stored.Some? && |stored.value| > 0 {
        candidateRows := Rows(stored.value);
      }
    }

    /** The rows the table shows. */
    function View(): seq<CandidateRow>
      reads this
    {
      Filtered(candidateRows, statusFilter, searchQuery, sortField, sortDir)
    }

    method ToggleSort(field: SortField)
      modifies this`sortField, this`sortDir
      ensures (sortField, sortDir) == Toggled(old(sortField), old(sortDir), field)
    {
      if sortField == field {
        sortDir := if sortDir.Asc? then Desc else Asc;
      } else {
        sortField := field;
        sortDir := Desc;
      }
    }

    method SetStatus(id: string, status: Status)
      modifies this`candidateRows
      ensures candidateRows == WithStatus(old(candidateRows), id, status)
    {
      candidateRows := WithStatus(candidateRows, id, status);
    }

    /**
     * `runScoring`, with the request's outcome as a parameter. `requested`
     * says whether the request would be sent; the input checks run first
     * and leave `isScoring` alone.
     */
    method RunScoring(reply: ScoringReply) returns (requested: bool)
      modifies this`scoreError, this`isScoring, this`candidateRows, this`showUpload, this`stored
      ensures requested <==> old(jdFile).Some? && old(resumeFiles) != []
      ensures old(jdFile).None? ==> scoreError == Some(NoJdMessage)
      ensures old(jdFile).Some? && old(resumeFiles) == [] ==> scoreError == Some(NoResumeMessage)
      ensures !requested ==> isScoring == old(isScoring)
      ensures requested ==> !isScoring
      ensures requested && ReplyResult(reply).Err? ==> scoreError == Some(ReplyResult(reply).error)
      ensures requested && ReplyResult(reply).Ok? ==>
        && scoreError == None
        && stored == Some(ReplyResult(reply).value)
        && candidateRows == Rows(ReplyResult(reply).value)
        && !showUpload
      ensures !(requested && ReplyResult(reply).Ok?) ==>
        candidateRows == old(candidateRows) && stored == old(stored) && showUpload == old(showUpload)
    {
      scoreError := None;
      if jdFile.None? {
        scoreError := Some(NoJdMessage);
        return false;
      }
      if resumeFiles == [] {
        scoreError := Some(NoResumeMessage);
        return false;
      }
      isScoring := true;
      var result := ReplyResult(reply);
      if result.Ok? {
        stored := Some(result.value);
        candidateRows := Rows(result.value);
        showUpload := false;
      } else {
        scoreError := Some(result.error);
      }
      isScoring := false;
      return true;
    }

    /** The JD picker is single-file; its `onChange` keeps the first file of the list, if any. */
    method PickJd(picked: seq<File>)
      modifies this`jdFile
      ensures picked == [] ==> jdFile == old(jdFile)
      ensures picked != [] ==> jdFile == Some(picked[0])
    {
      var files := if jdFile.Some? then [jdFile.value] else [];
      var next := Picked(false, files, picked);
      if next.Some? {
        jdFile := if next.value != [] then Some(next.value[0]) else None;
      }
    }

    method RemoveJd(idx: int)
      modifies this`jdFile
      ensures jdFile == (if idx == 0 then None else old(jdFile))
    {
      var files := if jdFile.Some? then [jdFile.value] else [];
      var next := RemoveAt(files, idx);
      jdFile := if next != [] then Some(next[0]) else None;
    }

    method PickResumes(picked: seq<File>)
      modifies this`resumeFiles
      ensures resumeFiles == old(resumeFiles) + picked
    {
      var next := Picked(true, resumeFiles, picked);
      if next.Some? {
        resumeFiles := next.value;
      }
    }

    method RemoveResume(idx: int)
      modifies this`resumeFiles
      ensures resumeFiles == RemoveAt(old(resumeFiles), idx)
      ensures 0 <= idx < |old(resumeFiles)| ==> |resumeFiles| == |old(resumeFiles)| - 1
    {
      resumeFiles := RemoveAt(resumeFiles, idx);
    }
  }
}
