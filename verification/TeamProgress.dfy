/** A team at a challenge that every member must solve, while its membership changes. Removing a member, like
    deleting an account, deletes that user's submissions and the solves that hang on them; an administrator's
    change of a user's team leaves them where they are. */
module TeamProgress {
  import opened Options
  import opened Submissions

  /** The team's members, its stored partial submissions and who made the submission that solved it. */
  datatype TeamState = TeamState(members: set<UserId>, partials: seq<Entry>, solver: Option<UserId>)

  datatype Event =
    | Submits(entry: Entry)
    | Joins(user: UserId)
    | Erased(user: UserId)        // removed from this or another team, or deleted
    | Reassigned(user: UserId)    // put into another team, or into none, by an administrator

  const EMPTY := TeamState({}, [], None)

  function Present(rules: Rules, t: TeamState): Rules { rules.(members := t.members) }

  function Without(entries: seq<Entry>, u: UserId): seq<Entry> {
    if entries == [] then []
    else
      var front, last := Without(entries[..|entries| - 1], u), entries[|entries| - 1];
      if last.user == u then front else front + [last]
  }

  /** Only members may submit; what they submit is judged by the rules as the members stand. */
  function Happen(rules: Rules, t: TeamState, event: Event): TeamState {
    match event
    case Submits(e) =>
      if e.user !in t.members || t.solver.Some? then t
      else
        (match Judge(Present(rules, t), t.partials, e)
         case Correct => t.(solver := Some(e.user))
         case Partial => t.(partials := t.partials + [e])
         case Incorrect => t)
    case Joins(u) => t.(members := t.members + {u})
    case Erased(u) =>
      TeamState(t.members - {u}, Without(t.partials, u), if t.solver == Some(u) then None else t.solver)
    case Reassigned(u) => t.(members := t.members - {u})
  }

  function Following(rules: Rules, t: TeamState, events: seq<Event>): TeamState {
    if events == [] then t else Happen(rules, Following(rules, t, events[..|events| - 1]), events[|events| - 1])
  }

  /** Users whose partial submissions still count for the team although they are no longer in it. */
  function Strays(t: TeamState): set<UserId> { Submitters(t.partials) - t.members }

  predicate EveryMember(rules: Rules) { rules.logic.Team? && rules.teamMode }

  // ------------------------------------------------------------------ submitters

  lemma SubmittersAppend(entries: seq<Entry>, e: Entry)
    ensures Submitters(entries + [e]) == Submitters(entries) + {e.user}
  {
    forall x | x in entries ensures x in entries + [e] {}
    assert e in entries + [e];
  }

  lemma {:induction false} SubmittersWithout(entries: seq<Entry>, u: UserId)
    ensures Submitters(Without(entries, u)) == Submitters(entries) - {u}
  {
    if entries != [] {
      var front, last := entries[..|entries| - 1], entries[|entries| - 1];
      assert entries == front + [last];
      SubmittersWithout(front, u);
      SubmittersAppend(front, last);
      SubmittersAppend(Without(front, u), last);
    }
  }

  // ------------------------------------------------------------------ how strays come and go

  /** What one event does to the strays: only a reassignment of a member with a stored partial makes one, and
      only their return or the deletion of their submissions ends it. */
  lemma StraysAfter(rules: Rules, t: TeamState, event: Event)
    ensures Strays(Happen(rules, t, event)) ==
            match event
            case Submits(_) => Strays(t)
            case Joins(u) => Strays(t) - {u}
            case Erased(u) => Strays(t) - {u}
            case Reassigned(u) => Strays(t) + if u in t.members && u in Submitters(t.partials) then {u} else {}
  {
    match event
    case Submits(e) => SubmittersAppend(t.partials, e);
    case Erased(u) => SubmittersWithout(t.partials, u);
    case _ =>
  }

  /** Without reassignments there never is one: the ordinary ways out of a team leave nothing behind. */
  lemma {:induction false} NoStraysWithoutReassignment(rules: Rules, events: seq<Event>)
    requires forall n | 0 <= n < |events| :: !events[n].Reassigned?
    ensures Strays(Following(rules, EMPTY, events)) == {}
  {
    if events != [] {
      NoStraysWithoutReassignment(rules, events[..|events| - 1]);
      StraysAfter(rules, Following(rules, EMPTY, events[..|events| - 1]), events[|events| - 1]);
    }
  }

  // ------------------------------------------------------------------ a stray blocks the team

  /** Nothing solves the challenge while somebody with a stored partial is away: not until that user is back in
      the team or the user's submissions are deleted. */
  lemma {:induction false} FormerMemberBlocks(rules: Rules, t: TeamState, events: seq<Event>, u: UserId)
    requires EveryMember(rules) && t.solver.None? && u in Strays(t)
    requires Joins(u) !in events && Erased(u) !in events
    ensures Following(rules, t, events).solver.None? && u in Strays(Following(rules, t, events))
  {
    if events != [] {
      var front := events[..|events| - 1];
      FormerMemberBlocks(rules, t, front, u);
      StraysAfter(rules, Following(rules, t, front), events[|events| - 1]);
    }
  }

  // ------------------------------------------------------------------ and nothing else does

  function InTurn(users: seq<UserId>, text: Text): (events: seq<Event>)
    ensures |events| == |users|
  {
    if users == [] then [] else InTurn(users[..|users| - 1], text) + [Submits(Entry(users[|users| - 1], text))]
  }

  function Users(users: seq<UserId>): set<UserId> { set u | u in users }

  /** A member's matching submission is a partial, or solves when it leaves nobody out. */
  lemma OneSubmits(rules: Rules, t: TeamState, e: Entry)
    requires EveryMember(rules) && t.solver.None? && e.user in t.members && MatchesSome(rules, e.text)
    ensures Happen(rules, t, Submits(e)) ==
            if Submitters(t.partials) + {e.user} == t.members then t.(solver := Some(e.user))
            else t.(partials := t.partials + [e])
    ensures Submitters(t.partials + [e]) == Submitters(t.partials) + {e.user}
  {
    SubmittersAppend(t.partials, e);
    assert MatchesSome(Present(rules, t), e.text) by {
      var f :| f in rules.flags && rules.matches(f, e.text).matched;
    }
  }

  lemma {:induction false} EachInTurn(rules: Rules, t: TeamState, users: seq<UserId>, text: Text)
    requires EveryMember(rules) && t.solver.None? && MatchesSome(rules, text)
    requires Users(users) <= t.members && Submitters(t.partials) <= t.members
    ensures var t' := Following(rules, t, InTurn(users, text));
            && t'.members == t.members
            && (t'.solver.None? ==> Submitters(t'.partials) == Submitters(t.partials) + Users(users))
            && (users != [] && Submitters(t.partials) + Users(users) == t.members ==> t'.solver.Some?)
  {
    if users != [] {
      var front, u := users[..|users| - 1], users[|users| - 1];
      assert users == front + [u];
      assert u in users && Users(users) == Users(front) + {u};
      EachInTurn(rules, t, front, text);
      var mid, events := Following(rules, t, InTurn(front, text)), InTurn(users, text);
      assert events[..|events| - 1] == InTurn(front, text);
      if mid.solver.None? {
        OneSubmits(rules, mid, Entry(u, text));
        hide Submitters, Judge;
      }
    } else {
      assert Users(users) == {};
    }
  }

  lemma {:induction false} Listed(members: set<UserId>) returns (users: seq<UserId>)
    ensures Users(users) == members
    decreases |members|
  {
    users := [];
    if members != {} {
      var u :| u in members;
      var rest := Listed(members - {u});
      users := rest + [u];
      assert Users(users) == Users(rest) + {u} by {
        forall x | x in rest ensures x in users {}
        assert u in users;
      }
    }
  }

  ghost predicate OnlySubmits(events: seq<Event>) { forall n | 0 <= n < |events| :: events[n].Submits? }

  lemma {:induction false} InTurnSubmits(users: seq<UserId>, text: Text)
    ensures OnlySubmits(InTurn(users, text))
  {
    if users != [] { InTurnSubmits(users[..|users| - 1], text); }
  }

  /** The team as it stands can still solve the challenge, by whatever submissions. */
  ghost predicate Solvable(rules: Rules, t: TeamState) {
    exists events :: OnlySubmits(events) && Following(rules, t, events).solver.Some?
  }

  /** Exactly when an unsolved challenge can be solved by the members as they stand: when everybody whose
      partial is stored is one of them. */
  lemma SolvableExactlyWithoutStrays(rules: Rules, t: TeamState, text: Text)
    requires EveryMember(rules) && t.solver.None? && t.members != {} && MatchesSome(rules, text)
    ensures Solvable(rules, t) <==> Strays(t) == {}
  {
    if Strays(t) == {} {
      forall u | u in Submitters(t.partials) ensures u in t.members { assert u !in Strays(t); }
      var users := Listed(t.members);
      assert Users([]) == {};
      EachInTurn(rules, t, users, text);
      InTurnSubmits(users, text);
    } else {
      var u :| u in Strays(t);
      forall events | OnlySubmits(events) ensures Following(rules, t, events).solver.None? {
        forall n | 0 <= n < |events| ensures events[n] != Joins(u) && events[n] != Erased(u) {}
        FormerMemberBlocks(rules, t, events, u);
      }
    }
  }

  /** A team of two of whom one submits and is then put elsewhere by an administrator: the other can submit
      whatever there is, and it is the erasure of the first one's submissions that makes it solvable. */
  lemma ReassignmentBlocks(rules: Rules, text: Text) returns (events: seq<Event>)
    requires EveryMember(rules) && MatchesSome(rules, text)
    ensures events == [Joins(0), Joins(1), Submits(Entry(0, text)), Reassigned(0)]
    ensures var t := Following(rules, EMPTY, events);
            && t.members == {1} && t.solver.None? && Strays(t) == {0} && !Solvable(rules, t)
            && Solvable(rules, Happen(rules, t, Erased(0))) && Solvable(rules, Happen(rules, t, Joins(0)))
  {
    events := [Joins(0), Joins(1), Submits(Entry(0, text)), Reassigned(0)];
    var e := Entry(0, text);
    var both := TeamState({0, 1}, [], None);
    assert events[..3][..2][..1][..0] == [] && events[..3][..2][..1] == [Joins(0)]
        && events[..3][..2] == [Joins(0), Joins(1)];
    assert events[..3] == [Joins(0), Joins(1), Submits(e)];
    assert Following(rules, EMPTY, [Joins(0)]) == TeamState({0}, [], None);
    assert Following(rules, EMPTY, [Joins(0), Joins(1)]) == both;
    assert MatchesSome(Present(rules, both), text) by {
      var f :| f in rules.flags && rules.matches(f, text).matched;
    }
    assert Submitters([]) + {0} != both.members by { assert 1 in both.members; }
    assert Following(rules, EMPTY, events[..3]) == both.(partials := [e]);
    var t := TeamState({1}, [e], None);
    assert Following(rules, EMPTY, events) == t;
    assert e in [e] && Submitters([e]) == {0};
    SolvableExactlyWithoutStrays(rules, t, text);
    StraysAfter(rules, t, Erased(0));
    StraysAfter(rules, t, Joins(0));
    SolvableExactlyWithoutStrays(rules, Happen(rules, t, Erased(0)), text);
    SolvableExactlyWithoutStrays(rules, Happen(rules, t, Joins(0)), text);
  }
}
