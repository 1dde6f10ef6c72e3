/** Submitting a flag: the limits on attempts, the comparison with the stored flags, and the rows that are
    written. One object stands for one account and one challenge, under that pair's advisory lock. */
module Attempts {
  import opened Options
  import opened Submissions

  datatype RowKind = CorrectRow | PartialRow | IncorrectRow | DiscardRow | RateLimitedRow
  datatype Row = Row(entry: Entry, kind: RowKind, at: int, shared: Option<Evidence>)

  datatype Limits = Limits(maxAttempts: nat, timeout: bool, maxTimeout: nat, perMinute: nat)

  datatype Response = NoDefinition | Solved | PartlySolved | Wrong | AlreadySolved | RateLimited | LockedOut

  function OfKind(rows: seq<Row>, kind: RowKind): seq<Entry> {
    if rows == [] then []
    else
      var front, last := OfKind(rows[..|rows| - 1], kind), rows[|rows| - 1];
      if last.kind == kind then front + [last.entry] else front
  }

  predicate Evaluated(kind: RowKind) { kind.CorrectRow? || kind.PartialRow? || kind.IncorrectRow? }

  /** The submissions that were judged while the challenge was unsolved. */
  function Judged(rows: seq<Row>): seq<Entry> {
    if rows == [] then []
    else
      var front, last := Judged(rows[..|rows| - 1]), rows[|rows| - 1];
      if Evaluated(last.kind) then front + [last.entry] else front
  }

  lemma Appended(rows: seq<Row>, row: Row)
    ensures forall kind :: OfKind(rows + [row], kind)
              == if row.kind == kind then OfKind(rows, kind) + [row.entry] else OfKind(rows, kind)
    ensures Judged(rows + [row]) == if Evaluated(row.kind) then Judged(rows) + [row.entry] else Judged(rows)
  {
    assert (rows + [row])[..|rows|] == rows;
  }

  /** Incorrect rows since a moment, or ever. */
  function Fails(rows: seq<Row>, since: Option<int>): nat {
    if rows == [] then 0
    else
      var last := rows[|rows| - 1];
      Fails(rows[..|rows| - 1], since)
      + if last.kind.IncorrectRow? && (since.Some? ==> last.at >= since.value) then 1 else 0
  }

  function Since(limits: Limits, now: int): Option<int> {
    if limits.timeout then Some(now - limits.maxTimeout) else None
  }

  // ------------------------------------------------------------------ the attempt limit

  /** Every incorrect row was written while fewer than the permitted number counted. */
  predicate WithinLimit(limits: Limits, rows: seq<Row>) {
    limits.maxAttempts > 0 ==>
      forall i | 0 <= i < |rows| && rows[i].kind.IncorrectRow? ::
        Fails(rows[..i], Since(limits, rows[i].at)) < limits.maxAttempts
  }

  lemma LimitKept(limits: Limits, rows: seq<Row>, row: Row)
    requires WithinLimit(limits, rows)
    requires row.kind.IncorrectRow? && limits.maxAttempts > 0 ==>
               Fails(rows, Since(limits, row.at)) < limits.maxAttempts
    ensures WithinLimit(limits, rows + [row])
  {
    var longer := rows + [row];
    assert longer[..|rows|] == rows;
    forall i | 0 <= i < |rows| ensures longer[..i] == rows[..i] {}
  }

  predicate FailsSince(row: Row, since: Option<int>) {
    row.kind.IncorrectRow? && (since.None? || since.value <= row.at)
  }

  /** The incorrect submissions since a moment, or all of them. */
  function Failures(rows: seq<Row>, since: Option<int>): set<int> {
    set i | 0 <= i < |rows| && FailsSince(rows[i], since)
  }

  lemma {:induction false} FailsCounts(rows: seq<Row>, since: Option<int>)
    ensures Fails(rows, since) == |Failures(rows, since)|
  {
    if rows == [] {
      assert Failures(rows, since) == {};
    } else {
      var front, last := rows[..|rows| - 1], |rows| - 1;
      FailsCounts(front, since);
      assert Fails(rows, since) == Fails(front, since) + if FailsSince(rows[last], since) then 1 else 0;
      hide FailsSince, Fails;
      assert Failures(rows, since) == Failures(front, since) + if FailsSince(rows[last], since) then {last} else {};
    }
  }

  lemma {:induction false} FailsShrink(rows: seq<Row>, early: int, late: int)
    requires early <= late
    ensures Fails(rows, Some(late)) <= Fails(rows, Some(early)) <= Fails(rows, None)
  {
    if rows != [] { FailsShrink(rows[..|rows| - 1], early, late); }
  }

  /** Under lockout an account never has more incorrect submissions than permitted. */
  lemma {:induction false} LockoutHolds(limits: Limits, rows: seq<Row>)
    requires WithinLimit(limits, rows) && !limits.timeout && limits.maxAttempts > 0
    ensures Fails(rows, None) <= limits.maxAttempts
  {
    if rows != [] {
      var front := rows[..|rows| - 1];
      forall i | 0 <= i < |front| ensures front[..i] == rows[..i] {}
      LockoutHolds(limits, front);
    }
  }

  function FailsBetween(rows: seq<Row>, from: int, to: int): nat {
    if rows == [] then 0
    else
      var last := rows[|rows| - 1];
      FailsBetween(rows[..|rows| - 1], from, to) + if last.kind.IncorrectRow? && from <= last.at <= to then 1 else 0
  }

  lemma {:induction false} BetweenIsSince(rows: seq<Row>, from: int, to: int)
    ensures FailsBetween(rows, from, to) <= Fails(rows, Some(from))
  {
    if rows != [] { BetweenIsSince(rows[..|rows| - 1], from, to); }
  }

  /** Under timeout an account never has more incorrect submissions than permitted within any span of the
      timeout's length. */
  lemma {:induction false} TimeoutHolds(limits: Limits, rows: seq<Row>, from: int)
    requires WithinLimit(limits, rows) && limits.timeout && limits.maxAttempts > 0
    ensures FailsBetween(rows, from, from + limits.maxTimeout) <= limits.maxAttempts
  {
    if rows != [] {
      var front, last := rows[..|rows| - 1], rows[|rows| - 1];
      forall i | 0 <= i < |front| ensures front[..i] == rows[..i] {}
      TimeoutHolds(limits, front, from);
      if last.kind.IncorrectRow? && from <= last.at <= from + limits.maxTimeout {
        BetweenIsSince(front, from, from + limits.maxTimeout);
        FailsShrink(front, last.at - limits.maxTimeout, from);
      }
    }
  }

  // ------------------------------------------------------------------ one account at one challenge

  class Account {
    const rules: Rules
    var rows: seq<Row>
    /** The rows of `solves` for this account and challenge. */
    var solves: nat

    ghost function Partials(): seq<Entry> reads this { OfKind(rows, PartialRow) }

    /** The stored rows are those of a history of judged submissions. */
    ghost predicate Valid() reads this {
      && After(rules, Judged(rows)) == Progress(Partials(), solves > 0)
      && solves == |OfKind(rows, CorrectRow)| <= 1
    }

    constructor (rules: Rules)
      ensures Valid() && rows == [] && this.rules == rules
    {
      this.rules := rules;
      rows, solves := [], 0;
    }

    /** The first flag that matches the text, and the evidence found up to there. */
    method FirstMatch(text: Text) returns (matched: bool, shared: Option<Evidence>)
      ensures matched == MatchesSome(rules, text)
      ensures shared.Some? ==> exists f :: f in rules.flags && rules.matches(f, text).shared == shared
    {
      shared := None;
      for i := 0 to |rules.flags|
        invariant forall j | 0 <= j < i :: !rules.matches(rules.flags[j], text).matched
        invariant shared.Some? ==> exists f :: f in rules.flags && rules.matches(f, text).shared == shared
      {
        var evaluation := rules.matches(rules.flags[i], text);
        if evaluation.shared.Some? { shared := evaluation.shared; }
        if evaluation.matched { return true, shared; }
      }
      return false, shared;
    }

    /** The loops of "all" logic: every flag against every stored partial and the current text. */
    method AllMatched(e: Entry) returns (all: bool, shared: Option<Evidence>)
      ensures all == Covers(rules, Partials() + [e])
      ensures shared.Some? ==> exists f :: f in rules.flags && rules.matches(f, e.text).shared == shared
    {
      var provided := StoredPartials();
      provided := provided + [e];
      var current := |provided| - 1;
      shared := None;
      for i := 0 to |rules.flags|
        invariant shared.Some? ==> exists f :: f in rules.flags && rules.matches(f, e.text).shared == shared
        invariant forall j | 0 <= j < i :: FlagFound(rules, rules.flags[j], provided)
      {
        var f := rules.flags[i];
        var matched := false;
        var index := 0;
        while index < |provided| && !matched
          invariant index <= |provided|
          decreases |provided| - index, !matched
          invariant shared.Some? ==> exists f :: f in rules.flags && rules.matches(f, e.text).shared == shared
          invariant matched ==> FlagFound(rules, f, provided)
          invariant !matched ==> forall j | 0 <= j < index :: !rules.matches(f, provided[j].text).matched
        {
          var evaluation := rules.matches(f, provided[index].text);
          if index == current && evaluation.shared.Some? { shared := evaluation.shared; }
          if evaluation.matched {
            matched := true;
          } else {
            index := index + 1;
          }
        }
        if !matched {
          assert !FlagFound(rules, f, provided);
          return false, shared;
        }
      }
      return true, shared;
    }

    method StoredPartials() returns (partials: seq<Entry>)
      ensures partials == Partials()
    {
      partials := [];
      for i := 0 to |rows|
        invariant partials == OfKind(rows[..i], PartialRow)
      {
        assert rows[..i + 1][..i] == rows[..i];
        if rows[i].kind.PartialRow? { partials := partials + [rows[i].entry]; }
      }
      assert rows[..|rows|] == rows;
    }

    /** `compare_submission`. Evidence of a shared flag only ever comes from the current submission. */
    method CompareSubmission(e: Entry) returns (verdict: Verdict, shared: Option<Evidence>)
      ensures verdict == Judge(rules, Partials(), e)
      ensures shared.Some? ==> exists f :: f in rules.flags && rules.matches(f, e.text).shared == shared
    {
      if rules.flags == [] { return Incorrect, None; }
      match rules.logic {
        case All =>
          var all: bool;
          all, shared := AllMatched(e);
          if all { return Correct, shared; }
          var matched, more := FirstMatch(e.text);
          if more.Some? { shared := more; }
          verdict := if matched then Partial else Incorrect;
        case _ =>
          var matched: bool;
          matched, shared := FirstMatch(e.text);
          if !matched { return Incorrect, shared; }
          if rules.logic.Team? && rules.teamMode {
            var partials := StoredPartials();
            var submitters := (set p | p in partials :: p.user) + {e.user};
            verdict := if submitters == rules.members then Correct else Partial;
          } else {
            verdict := Correct;
          }
      }
    }

    method Record(e: Entry, kind: RowKind, now: int, shared: Option<Evidence>)
      modifies this`rows
      ensures rows == old(rows) + [Row(e, kind, now, shared)]
    {
      rows := rows + [Row(e, kind, now, shared)];
    }

    /** `attempt`, behind its checks of access. A challenge without flags is an error. Otherwise a submission
        either meets a limit and is not judged, or is judged against what the account has found so far; the
        account solves the challenge at most once. */
    method Attempt(e: Entry, limits: Limits, now: int, recentIncorrect: nat) returns (response: Response)
      requires Valid()
      modifies this
      ensures Valid() && old(rows) <= rows && |rows| <= |old(rows)| + 1
      ensures response.NoDefinition? <==> rules.flags == []
      ensures response.NoDefinition? ==> rows == old(rows) && solves == old(solves)
      ensures response.LockedOut? || response.RateLimited? <==>
                rules.flags != []
                && ((limits.maxAttempts > 0 && Fails(old(rows), Since(limits, now)) >= limits.maxAttempts)
                    || recentIncorrect >= limits.perMinute)
      ensures response.LockedOut? || response.RateLimited? ==>
                Judged(rows) == Judged(old(rows)) && solves == old(solves)
      ensures response.AlreadySolved? ==> old(solves) > 0 && Judged(rows) == Judged(old(rows)) && solves == old(solves)
      ensures response.Solved? || response.PartlySolved? || response.Wrong? ==>
                && old(solves) == 0 && Judged(rows) == Judged(old(rows)) + [e]
                && solves == (if response.Solved? then 1 else 0)
                && response == (match Judge(rules, old(Partials()), e)
                                case Correct => Solved case Partial => PartlySolved case Incorrect => Wrong)
      ensures WithinLimit(limits, old(rows)) ==> WithinLimit(limits, rows)
      ensures response.LockedOut? <==>
                rules.flags != [] && limits.maxAttempts > 0 && !limits.timeout
                && |Failures(old(rows), None)| >= limits.maxAttempts
      ensures response.RateLimited? <==>
                rules.flags != [] && !response.LockedOut?
                && ((limits.maxAttempts > 0 && limits.timeout
                     && |Failures(old(rows), Some(now - limits.maxTimeout))| >= limits.maxAttempts)
                    || recentIncorrect >= limits.perMinute)
      ensures response.LockedOut? ==> rows == old(rows)
      ensures response.RateLimited? ==> rows == old(rows) + [Row(e, RateLimitedRow, now, None)]
      ensures !response.LockedOut? && !response.NoDefinition? ==>
                && |rows| == |old(rows)| + 1 && rows[|rows| - 1].entry == e && rows[|rows| - 1].at == now
                && rows[|rows| - 1].kind == (match response
                                             case Solved => CorrectRow case PartlySolved => PartialRow
                                             case Wrong => IncorrectRow case AlreadySolved => DiscardRow
                                             case _ => RateLimitedRow)
    {
      FailsCounts(rows, None);
      FailsCounts(rows, Some(now - limits.maxTimeout));
      assert Since(limits, now) == if limits.timeout then Some(now - limits.maxTimeout) else None;
      hide Failures;
      hide WithinLimit, Fails, Since, Judge, Judged, After, OfKind;
      if rules.flags == [] { return NoDefinition; }
      if limits.maxAttempts > 0 {
        var fails := CountFails(Since(limits, now));
        if fails >= limits.maxAttempts {
          if limits.timeout {
            if WithinLimit(limits, rows) { LimitKept(limits, rows, Row(e, RateLimitedRow, now, None)); }
            Append(e, RateLimitedRow, now, None);
            return RateLimited;
          }
          return LockedOut;
        }
      }
      if recentIncorrect >= limits.perMinute {
        if WithinLimit(limits, rows) { LimitKept(limits, rows, Row(e, RateLimitedRow, now, None)); }
        Append(e, RateLimitedRow, now, None);
        return RateLimited;
      }
      var verdict, shared := CompareSubmission(e);
      if solves > 0 {
        if WithinLimit(limits, rows) { LimitKept(limits, rows, Row(e, DiscardRow, now, shared)); }
        Append(e, DiscardRow, now, shared);
        return AlreadySolved;
      }
      match verdict {
        case Correct =>
          if WithinLimit(limits, rows) { LimitKept(limits, rows, Row(e, CorrectRow, now, shared)); }
          Append(e, CorrectRow, now, shared);
          response := Solved;
        case Partial =>
          if WithinLimit(limits, rows) { LimitKept(limits, rows, Row(e, PartialRow, now, shared)); }
          Append(e, PartialRow, now, shared);
          response := PartlySolved;
        case Incorrect =>
          if WithinLimit(limits, rows) { LimitKept(limits, rows, Row(e, IncorrectRow, now, shared)); }
          Append(e, IncorrectRow, now, shared);
          response := Wrong;
      }
    }

    method CountFails(since: Option<int>) returns (count: nat)
      ensures count == Fails(rows, since)
    {
      count := 0;
      for i := 0 to |rows|
        invariant count == Fails(rows[..i], since)
      {
        assert rows[..i + 1][..i] == rows[..i];
        if rows[i].kind.IncorrectRow? && (since.Some? ==> rows[i].at >= since.value) { count := count + 1; }
      }
      assert rows[..|rows|] == rows;
    }

    /** The row of one submission, and the solve that goes with a correct one. */
    method Append(e: Entry, kind: RowKind, now: int, shared: Option<Evidence>)
      requires Valid()
      requires Evaluated(kind) ==> solves == 0 && kind == (match Judge(rules, Partials(), e)
                                                           case Correct => CorrectRow case Partial => PartialRow
                                                           case Incorrect => IncorrectRow)
      modifies this
      ensures Valid() && rows == old(rows) + [Row(e, kind, now, shared)]
      ensures Judged(rows) == if Evaluated(kind) then Judged(old(rows)) + [e] else Judged(old(rows))
      ensures solves == old(solves) + if kind.CorrectRow? then 1 else 0
    {
      Appended(rows, Row(e, kind, now, shared));
      ghost var judged := Judged(rows);
      assert (judged + [e])[..|judged|] == judged;
      Record(e, kind, now, shared);
      if kind.CorrectRow? { solves := solves + 1; }
    }
  }

  /** An account's challenge counts as solved exactly when its judged submissions have achieved the goal. */
  lemma SolvedMeansAchieved(a: Account)
    requires a.Valid() && Playable(a.rules, Judged(a.rows))
    ensures a.solves > 0 <==> Achieved(a.rules, Judged(a.rows))
    ensures a.solves <= 1
  {
    SolvedExactlyWhenAchieved(a.rules, Judged(a.rows));
  }
}
