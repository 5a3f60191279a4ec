/**
 * What the two AI-backed scrapers do with the generator's reply before mapping it to jobs:
 * cut out the greedy bracketed span, hand it to the JSON parser, keep the entries that have a
 * title and a company, and stop after the first five.
 */
module AiExtraction {
  import opened Common
  import opened Strings
  import Seqs

  /** A field of one parsed JSON entry: absent, a string, or some other JSON value. */
  datatype RawValue = Absent | Text(s: string) | NonText(truthy: bool, shown: string)

  /** JavaScript truthiness; an empty string is falsy, other JSON values carry their own. */
  predicate Truthy(v: RawValue) {
    match v
    case Absent => false
    case Text(s) => s != ""
    case NonText(t, _) => t
  }

  /** `String(v || fallback)`: the value's string form when truthy, else the fallback. */
  function OrElse(v: RawValue, fallback: string): (r: string)
    ensures !Truthy(v) ==> r == fallback
    ensures v.Text? && v.s != "" ==> r == v.s
    ensures v.NonText? && v.truthy ==> r == v.shown
  {
    if Truthy(v) && v.Text? then v.s
    else if Truthy(v) && v.NonText? then v.shown
    else fallback
  }

  /**
   * One element of the parsed array. A JSON element that is not an object has no fields, so it
   * is the entry whose every field is `Absent`.
   */
  datatype RawEntry = RawEntry(
    title: RawValue, company: RawValue, location: RawValue, jobType: RawValue,
    deadline: RawValue, description: RawValue, salary: RawValue)

  /** What `JSON.parse` made of the span. */
  datatype JsonOutcome = ParseError | NotArray | Array(entries: seq<RawEntry>)

  const MaxJobsPerSource: nat := 5

  function FirstIndex(t: string, c: char): (r: Option<nat>)
    ensures r.Some? ==> r.value < |t| && t[r.value] == c && c !in t[..r.value]
    ensures r.None? ==> c !in t
  {
    if t == [] then None
    else if t[0] == c then Some(0)
    else match FirstIndex(t[1..], c)
      case None => None
      case Some(i) => assert t[..i + 1] == [t[0]] + t[1..][..i]; Some(i + 1)
  }

  function LastIndex(t: string, c: char): (r: Option<nat>)
    ensures r.Some? ==> r.value < |t| && t[r.value] == c && c !in t[r.value + 1..]
    ensures r.None? ==> c !in t
  {
    if t == [] then None
    else if t[|t| - 1] == c then Some(|t| - 1)
    else match LastIndex(t[..|t| - 1], c)
      case None => assert t == t[..|t| - 1] + [t[|t| - 1]]; None
      case Some(i) => assert t[i + 1..] == t[..|t| - 1][i + 1..] + [t[|t| - 1]]; Some(i)
  }

  /**
   * The match of `/\[[\s\S]*\]/`: from the first `[` to the last `]`, if that `]` comes after
   * that `[`.
   */
  function FindJsonArray(t: string): (r: Option<string>)
    ensures r.Some? <==> exists i, j :: 0 <= i < j < |t| && t[i] == '[' && t[j] == ']'
    ensures r.Some? ==>
      && |r.value| >= 2 && r.value[0] == '[' && r.value[|r.value| - 1] == ']'
      && exists i: nat :: OccursAt(t, r.value, i) && '[' !in t[..i] && ']' !in t[i + |r.value|..]
  {
    match (FirstIndex(t, '['), LastIndex(t, ']'))
    case (Some(i), Some(j)) =>
      if i < j then
        assert OccursAt(t, t[i..j + 1], i);
        Some(t[i..j + 1])
      else
        assert forall a, b :: 0 <= a < b < |t| && t[a] == '[' ==> t[b] != ']' by {
          forall a, b | 0 <= a < b < |t| && t[a] == '[' ensures t[b] != ']' {
            if b > j { assert t[j + 1..][b - j - 1] == t[b]; }
          }
        }
        None
    case (None, _) => None
    case (_, None) => None
  }

  predicate HasTitleAndCompany(e: RawEntry) {
    Truthy(e.title) && Truthy(e.company)
  }

  /** `entries.filter(j => j?.title && j?.company).slice(0, 5)`. */
  function Candidates(entries: seq<RawEntry>): (r: seq<RawEntry>)
    ensures |r| <= MaxJobsPerSource
    ensures forall i :: 0 <= i < |r| ==> HasTitleAndCompany(r[i])
    ensures Seqs.IsSubsequence(r, entries)
    ensures r == Seqs.Prefix(Seqs.Filter(entries, HasTitleAndCompany), MaxJobsPerSource)
  {
    var kept := Seqs.Filter(entries, HasTitleAndCompany);
    Seqs.FilterIsSubsequence(entries, HasTitleAndCompany);
    Seqs.PrefixIsSubsequence(kept, MaxJobsPerSource);
    Seqs.SubsequenceTrans(Seqs.Prefix(kept, MaxJobsPerSource), kept, entries);
    Seqs.Prefix(kept, MaxJobsPerSource)
  }

  /**
   * The entries the reply yields, or none when it has no bracketed span, when the span does not
   * parse, or when it parses to something other than an array.
   */
  function ReplyCandidates(reply: string, parse: string -> JsonOutcome): (r: seq<RawEntry>)
    ensures |r| <= MaxJobsPerSource
    ensures forall i :: 0 <= i < |r| ==> HasTitleAndCompany(r[i])
    ensures FindJsonArray(reply).None? ==> r == []
    ensures FindJsonArray(reply).Some? && !parse(FindJsonArray(reply).value).Array? ==> r == []
    ensures FindJsonArray(reply).Some? && parse(FindJsonArray(reply).value).Array? ==>
      r == Candidates(parse(FindJsonArray(reply).value).entries)
  {
    match FindJsonArray(reply)
    case None => []
    case Some(span) =>
      match parse(span)
      case Array(entries) => Candidates(entries)
      case _ => []
  }

  /** A reply without any bracket yields nothing, whatever the parser would say. */
  lemma NoBracketNoJobs(reply: string, parse: string -> JsonOutcome)
    requires '[' !in reply
    ensures ReplyCandidates(reply, parse) == []
  {
  }

  /** A span holding six titled entries yields exactly the first five of them. */
  lemma SixEntriesKeepFive(reply: string, parse: string -> JsonOutcome, e: RawEntry)
    requires FindJsonArray(reply).Some?
    requires parse(FindJsonArray(reply).value) == Array([e, e, e, e, e, e])
    requires HasTitleAndCompany(e)
    ensures ReplyCandidates(reply, parse) == [e, e, e, e, e]
  {
    var six := [e, e, e, e, e, e];
    assert ReplyCandidates(reply, parse) == Candidates(six);
    TitledCandidates(six);
    assert six[..5] == [e, e, e, e, e];
  }

  /** When every entry has a title and a company, the candidates are the first five entries. */
  lemma TitledCandidates(entries: seq<RawEntry>)
    requires forall i :: 0 <= i < |entries| ==> HasTitleAndCompany(entries[i])
    ensures Candidates(entries) == Seqs.Prefix(entries, MaxJobsPerSource)
  {
    Seqs.FilterKeepsAll(entries, HasTitleAndCompany);
  }
}
