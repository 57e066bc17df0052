/** Annotations as they are stored, text by key, and the view of them that the controllers decide on. */
module AnnotationMap {
  import opened Resources
  import opened Text
  import opened Protocol

  const PLAN_DATE := "runner.terraform.padok.cloud/plan-date"
  const PLAN_RUN := "runner.terraform.padok.cloud/plan-run"
  const PLAN_SUM := "runner.terraform.padok.cloud/plan-sum"
  const PLAN_COMMIT := "runner.terraform.padok.cloud/plan-commit"
  const APPLY_DATE := "runner.terraform.padok.cloud/apply-date"
  const APPLY_SUM := "runner.terraform.padok.cloud/apply-sum"
  const APPLY_COMMIT := "runner.terraform.padok.cloud/apply-commit"
  const BRANCH_COMMIT := "webhook.terraform.padok.cloud/branch-commit"
  const BRANCH_DATE := "webhook.terraform.padok.cloud/branch-commit-date"
  const RELEVANT_COMMIT := "webhook.terraform.padok.cloud/relevant-commit"
  const RELEVANT_DATE := "webhook.terraform.padok.cloud/relevant-commit-date"
  const SYNC_NOW := "api.terraform.padok.cloud/sync-now"
  const APPLY_NOW := "api.terraform.padok.cloud/apply-now"

  /** How times are written and read. */
  datatype Dates = Dates(format: int -> string, parse: string -> Option<int>)

  ghost predicate Lossless(d: Dates) {
    forall t :: d.parse(d.format(t)) == Some(t)
  }

  // ---- view ----

  function Lookup(raw: map<string, string>, key: string): Option<string> {
    if key in raw then Some(raw[key]) else None
  }

  function StampOf(d: Dates, text: Option<string>): Stamp {
    if text.None? then Absent
    else if d.parse(text.value).None? then Garbled
    else At(d.parse(text.value).value)
  }

  /** Run and attempt, as the runner writes them. */
  function FormatCoord(c: Coord): string {
    c.run + "/" + Itoa(c.attempt)
  }

  function ParseCoord(text: Option<string>): Option<Coord> {
    if text.None? then None
    else
      var parts := Split(text.value, '/');
      if |parts| < 2 || parts[1] == "" || !AllDigits(parts[1]) then None
      else Some(Coord(parts[0], Magnitude(parts[1])))
  }

  function View(d: Dates, raw: map<string, string>): Annotations {
    Annotations(
      StampOf(d, Lookup(raw, PLAN_DATE)), ParseCoord(Lookup(raw, PLAN_RUN)), Lookup(raw, PLAN_SUM),
      Lookup(raw, PLAN_COMMIT),
      StampOf(d, Lookup(raw, APPLY_DATE)), Lookup(raw, APPLY_SUM), Lookup(raw, APPLY_COMMIT),
      Lookup(raw, BRANCH_COMMIT), StampOf(d, Lookup(raw, BRANCH_DATE)),
      Lookup(raw, RELEVANT_COMMIT), StampOf(d, Lookup(raw, RELEVANT_DATE)),
      SYNC_NOW in raw, APPLY_NOW in raw)
  }

  /** The coordinates of a plan survive the way through the annotation, for run names without a separator. */
  lemma ParseFormatted(c: Coord)
    requires '/' !in c.run
    ensures ParseCoord(Some(FormatCoord(c))) == Some(c)
  {
    ItoaDigits(c.attempt);
    ItoaPlain(c.attempt, '/');
    SplitFirst(c.run, Itoa(c.attempt), '/');
    SplitPlain(Itoa(c.attempt), '/');
    assert FormatCoord(c) == c.run + ['/'] + Itoa(c.attempt);
  }

  // ---- updates ----

  /** Sets every given annotation, in whatever order. */
  method Add(raw: map<string, string>, added: map<string, string>) returns (r: map<string, string>)
    ensures r == raw + added
  {
    r := raw;
    var left := added.Keys;
    while left != {}
      invariant left <= added.Keys
      invariant r == raw + (added - left)
      decreases left
    {
      var k :| k in left;
      r, left := r[k := added[k]], left - {k};
    }
  }

  method Remove(raw: map<string, string>, key: string) returns (r: map<string, string>)
    ensures r == raw - {key}
  {
    r := raw - {key};
  }

  function PlanReport(d: Dates, now: int, c: Coord, sum: string, commit: string): map<string, string> {
    map[PLAN_DATE := d.format(now), PLAN_RUN := FormatCoord(c), PLAN_SUM := sum, PLAN_COMMIT := commit]
  }

  function ApplyReport(d: Dates, now: int, sum: string, commit: string): map<string, string> {
    map[APPLY_DATE := d.format(now), APPLY_SUM := sum, APPLY_COMMIT := commit]
  }

  lemma PlanReported(d: Dates, raw: map<string, string>, now: int, c: Coord, sum: string, commit: string)
    requires Lossless(d) && '/' !in c.run
    ensures View(d, raw + PlanReport(d, now, c, sum, commit)) ==
            View(d, raw).(planDate := At(now), planRun := Some(c), planSum := Some(sum), planCommit := Some(commit))
  {
    ParseFormatted(c);
  }

  lemma ApplyReported(d: Dates, raw: map<string, string>, now: int, sum: string, commit: string)
    requires Lossless(d)
    ensures View(d, raw + ApplyReport(d, now, sum, commit)) ==
            View(d, raw).(applyDate := At(now), applySum := Some(sum), applyCommit := Some(commit))
  {
  }

  lemma SyncMarked(d: Dates, raw: map<string, string>)
    ensures View(d, raw + map[SYNC_NOW := "true"]) == View(d, raw).(syncNow := true)
  {
  }

  lemma ApplyMarked(d: Dates, raw: map<string, string>)
    ensures View(d, raw + map[APPLY_NOW := "true"]) == View(d, raw).(applyNow := true)
  {
  }

  lemma SyncUnmarked(d: Dates, raw: map<string, string>)
    ensures View(d, raw - {SYNC_NOW}) == View(d, raw).(syncNow := false)
  {
  }

  lemma ApplyUnmarked(d: Dates, raw: map<string, string>)
    ensures View(d, raw - {APPLY_NOW}) == View(d, raw).(applyNow := false)
  {
  }

  function BranchMarks(d: Dates, raw: map<string, string>, now: int, revision: string): map<string, string> {
    if Lookup(raw, BRANCH_COMMIT) != Some(revision) then map[BRANCH_COMMIT := revision, BRANCH_DATE := d.format(now)]
    else map[]
  }

  function RelevantMarks(d: Dates, raw: map<string, string>, now: int, revision: string, relevant: bool)
    : map<string, string>
  {
    if RELEVANT_COMMIT !in raw || relevant then map[RELEVANT_COMMIT := revision, RELEVANT_DATE := d.format(now)]
    else map[]
  }

  lemma BranchMarked(d: Dates, raw: map<string, string>, now: int, revision: string)
    requires Lossless(d)
    ensures View(d, raw + map[BRANCH_COMMIT := revision, BRANCH_DATE := d.format(now)]) ==
            View(d, raw).(branchCommit := Some(revision), branchDate := At(now))
  {
  }

  lemma RelevantMarked(d: Dates, raw: map<string, string>, now: int, revision: string)
    requires Lossless(d)
    ensures View(d, raw + map[RELEVANT_COMMIT := revision, RELEVANT_DATE := d.format(now)]) ==
            View(d, raw).(relevantCommit := Some(revision), relevantDate := At(now))
  {
  }

  /** What the repository controller sets on a layer is the protocol's commit step. */
  lemma CommitMarked(d: Dates, raw: map<string, string>, now: int, revision: string, relevant: bool)
    requires Lossless(d)
    ensures View(d, raw + BranchMarks(d, raw, now, revision) + RelevantMarks(d, raw, now, revision, relevant)) ==
            Annotated(View(d, raw), now, revision, relevant)
  {
    var next := raw + BranchMarks(d, raw, now, revision);
    BranchMarked(d, raw, now, revision);
    RelevantMarked(d, next, now, revision);
    assert raw + map[] == raw && next + map[] == next;
  }
}
