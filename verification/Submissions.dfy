/** How a challenge is solved: what one submission is judged to be, and what a history of submissions by
    one account has achieved. A flag's evaluation depends on the flag and the text alone. */
module Submissions {
  import opened Options

  type FlagId = nat
  type UserId = nat
  type Text = string

  datatype Evidence = Evidence(flag: FlagId, source: UserId, accepted: bool)
  datatype Evaluation = Evaluation(matched: bool, shared: Option<Evidence>)
  type Matcher = (FlagId, Text) -> Evaluation

  datatype Logic = Any | All | Team
  datatype Verdict = Correct | Partial | Incorrect

  /** A challenge as one account sees it: `members` is the team of a team account. */
  datatype Rules = Rules(flags: seq<FlagId>, matches: Matcher, logic: Logic, teamMode: bool, members: set<UserId>)

  datatype Entry = Entry(user: UserId, text: Text)

  predicate MatchesSome(rules: Rules, text: Text) { exists f | f in rules.flags :: rules.matches(f, text).matched }

  predicate FlagFound(rules: Rules, f: FlagId, entries: seq<Entry>) {
    exists e | e in entries :: rules.matches(f, e.text).matched
  }

  /** Between them the entries match every flag. */
  predicate Covers(rules: Rules, entries: seq<Entry>) {
    forall f | f in rules.flags :: FlagFound(rules, f, entries)
  }

  function Finders(rules: Rules, entries: seq<Entry>): set<UserId> {
    set e | e in entries && MatchesSome(rules, e.text) :: e.user
  }

  /** What it takes: any flag, every flag, or a flag from every member; without flags nothing does. */
  predicate Achieved(rules: Rules, entries: seq<Entry>) {
    if rules.flags == [] then false
    else if rules.logic.All? then Covers(rules, entries)
    else if rules.logic.Team? && rules.teamMode then Finders(rules, entries) == rules.members
    else exists e | e in entries :: MatchesSome(rules, e.text)
  }

  function Submitters(entries: seq<Entry>): set<UserId> { set e | e in entries :: e.user }

  /** `compare_submission`, given the account's stored partial submissions. */
  function Judge(rules: Rules, partials: seq<Entry>, e: Entry): Verdict {
    if rules.flags == [] then Incorrect
    else if rules.logic.All? then
      if Covers(rules, partials + [e]) then Correct else if MatchesSome(rules, e.text) then Partial else Incorrect
    else if rules.logic.Team? && rules.teamMode then
      if !MatchesSome(rules, e.text) then Incorrect
      else if Submitters(partials) + {e.user} == rules.members then Correct else Partial
    else if MatchesSome(rules, e.text) then Correct else Incorrect
  }

  // ------------------------------------------------------------------ histories

  datatype Progress = Progress(partials: seq<Entry>, solved: bool)

  /** A submission that passed the limits. Once the challenge is solved it is discarded. */
  function Submit(rules: Rules, p: Progress, e: Entry): Progress {
    if p.solved then p
    else match Judge(rules, p.partials, e)
      case Correct => p.(solved := true)
      case Partial => p.(partials := p.partials + [e])
      case Incorrect => p
  }

  function After(rules: Rules, log: seq<Entry>): Progress {
    if log == [] then Progress([], false) else Submit(rules, After(rules, log[..|log| - 1]), log[|log| - 1])
  }

  /** The account is one user, or a team whose submitters are its members. */
  predicate Playable(rules: Rules, log: seq<Entry>) {
    rules.logic.Team? && rules.teamMode ==> rules.members != {} && Submitters(log) <= rules.members
  }

  /** Unsolved: the stored partials are the matching submissions, and they do not achieve the goal. */
  ghost predicate Faithful(rules: Rules, log: seq<Entry>, p: Progress) {
    && (p.solved <==> Achieved(rules, log))
    && (forall e | e in p.partials :: e in log && MatchesSome(rules, e.text))
    && (!p.solved && (rules.logic.All? || (rules.logic.Team? && rules.teamMode)) ==>
          forall e | e in log && MatchesSome(rules, e.text) :: e in p.partials)
  }

  lemma CoversSame(rules: Rules, a: seq<Entry>, b: seq<Entry>)
    requires forall e | e in a && MatchesSome(rules, e.text) :: e in b
    requires Covers(rules, a)
    ensures Covers(rules, b)
  {
    forall f | f in rules.flags ensures FlagFound(rules, f, b) {
      assert FlagFound(rules, f, a);
      var e :| e in a && rules.matches(f, e.text).matched;
      assert MatchesSome(rules, e.text);
      assert e in b;
    }
  }

  /** Achievements are never lost. */
  lemma AchievedStays(rules: Rules, log: seq<Entry>, e: Entry)
    requires Playable(rules, log + [e]) && Achieved(rules, log)
    ensures Achieved(rules, log + [e])
  {
    if rules.logic.All? {
      CoversSame(rules, log, log + [e]);
    } else if rules.logic.Team? && rules.teamMode {
      FindersAppend(rules, log, e);
      assert e in log + [e] && e.user in Submitters(log + [e]);
    } else {
      var x :| x in log && MatchesSome(rules, x.text);
      assert x in log + [e];
    }
  }

  lemma FindersAppend(rules: Rules, log: seq<Entry>, e: Entry)
    ensures Finders(rules, log + [e]) == Finders(rules, log) + if MatchesSome(rules, e.text) then {e.user} else {}
  {
    forall x | x in Finders(rules, log + [e])
      ensures x in Finders(rules, log) + if MatchesSome(rules, e.text) then {e.user} else {}
    {
      var y :| y in log + [e] && MatchesSome(rules, y.text) && y.user == x;
      assert y in log || y == e;
    }
    forall x | x in Finders(rules, log) ensures x in Finders(rules, log + [e]) {
      var y :| y in log && MatchesSome(rules, y.text) && y.user == x;
      assert y in log + [e];
    }
    assert e in log + [e];
  }

  /** The verdict is "correct" exactly when the submission completes the goal. */
  lemma JudgedCorrectly(rules: Rules, log: seq<Entry>, p: Progress, e: Entry)
    requires Faithful(rules, log, p) && !p.solved && Playable(rules, log + [e])
    ensures Judge(rules, p.partials, e).Correct? <==> Achieved(rules, log + [e])
  {
    if rules.logic.All? {
      if Covers(rules, log + [e]) { CoversSame(rules, log + [e], p.partials + [e]); }
      if Covers(rules, p.partials + [e]) { CoversSame(rules, p.partials + [e], log + [e]); }
    } else if rules.logic.Team? && rules.teamMode {
      FindersAppend(rules, log, e);
      PartialsAreFinders(rules, log, p);
      assert e in log + [e] && e.user in Submitters(log + [e]);
    } else {
      if MatchesSome(rules, e.text) { assert e in log + [e]; }
      forall x | x in log ensures !MatchesSome(rules, x.text) { assert x in log; }
    }
  }

  lemma PartialsAreFinders(rules: Rules, log: seq<Entry>, p: Progress)
    requires Faithful(rules, log, p) && !p.solved && rules.logic.Team? && rules.teamMode
    ensures Submitters(p.partials) == Finders(rules, log)
  {
    forall u | u in Submitters(p.partials) ensures u in Finders(rules, log) {
      var e :| e in p.partials && e.user == u;
      assert e in log && MatchesSome(rules, e.text);
    }
    forall u | u in Finders(rules, log) ensures u in Submitters(p.partials) {
      var e :| e in log && MatchesSome(rules, e.text) && e.user == u;
      assert e in p.partials;
    }
  }

  lemma SubmitIsFaithful(rules: Rules, log: seq<Entry>, p: Progress, e: Entry)
    requires Faithful(rules, log, p) && Playable(rules, log + [e])
    ensures Faithful(rules, log + [e], Submit(rules, p, e))
  {
    if p.solved {
      AchievedStays(rules, log, e);
    } else {
      JudgedCorrectly(rules, log, p, e);
      hide Achieved;
    }
  }

  lemma NothingAchieved(rules: Rules)
    requires Playable(rules, [])
    ensures !Achieved(rules, [])
  {
    if rules.logic.All? && rules.flags != [] {
      assert !FlagFound(rules, rules.flags[0], []);
    } else if rules.logic.Team? && rules.teamMode {
      assert Finders(rules, []) == {};
    }
  }

  lemma PlayablePrefix(rules: Rules, log: seq<Entry>, n: nat)
    requires Playable(rules, log) && n <= |log|
    ensures Playable(rules, log[..n])
  {
  }

  lemma {:induction false} HistoryIsFaithful(rules: Rules, log: seq<Entry>)
    requires Playable(rules, log)
    ensures Faithful(rules, log, After(rules, log))
  {
    if log == [] {
      NothingAchieved(rules);
    } else {
      var front := log[..|log| - 1];
      assert log == front + [log[|log| - 1]];
      PlayablePrefix(rules, log, |log| - 1);
      HistoryIsFaithful(rules, front);
      SubmitIsFaithful(rules, front, After(rules, front), log[|log| - 1]);
    }
  }

  /** After any history the challenge is solved exactly when the submissions jointly achieve its goal: for
      "all" logic, when together they match every flag. */
  lemma SolvedExactlyWhenAchieved(rules: Rules, log: seq<Entry>)
    requires Playable(rules, log)
    ensures After(rules, log).solved <==> Achieved(rules, log)
  {
    HistoryIsFaithful(rules, log);
  }

  /** While it is unsolved, the stored partials never cover all the flags, if there are any. */
  lemma PartialsNeverCover(rules: Rules, log: seq<Entry>)
    requires Playable(rules, log) && rules.logic.All? && !After(rules, log).solved
    ensures Covers(rules, After(rules, log).partials) <==> rules.flags == []
  {
    HistoryIsFaithful(rules, log);
    if Covers(rules, After(rules, log).partials) { CoversSame(rules, After(rules, log).partials, log); }
  }

  /** The order in which the account submits does not matter. */
  lemma OrderDoesNotMatter(rules: Rules, a: seq<Entry>, b: seq<Entry>)
    requires Playable(rules, a) && multiset(a) == multiset(b)
    ensures Playable(rules, b) && After(rules, a).solved == After(rules, b).solved
  {
    forall e ensures e in a <==> e in b { assert e in multiset(a) <==> e in multiset(b); }
    assert Submitters(a) == Submitters(b);
    SolvedExactlyWhenAchieved(rules, a);
    SolvedExactlyWhenAchieved(rules, b);
    SameEntriesAchieve(rules, a, b);
  }

  lemma SameEntriesAchieve(rules: Rules, a: seq<Entry>, b: seq<Entry>)
    requires forall e :: e in a <==> e in b
    ensures Achieved(rules, a) <==> Achieved(rules, b)
  {
    if rules.logic.All? {
      if Covers(rules, a) { CoversSame(rules, a, b); }
      if Covers(rules, b) { CoversSame(rules, b, a); }
    } else if rules.logic.Team? && rules.teamMode {
      assert Finders(rules, a) == Finders(rules, b);
    }
  }
}
