/** The fan-out of an approved hold to the team, and the invitation of the next approver: both merge
    people into the attendee list by case-insensitive email (cmd/promote.go, cmd/daemon.go). */
module FanOut {
  import opened Base
  import opened Calendar

  datatype Person = Person(name: string, email: string)

  /** The part of a hold the fan-out reads and writes. */
  datatype Listing = Listing(attendees: seq<Attendee>, showAs: Option<ShowAs>)

  /** What resolving the team gave. */
  datatype Team = Members(people: seq<Person>) | NoDirectory | Unresolved

  datatype Outcome = TeamMissing | TeamFailed | NothingToAdd | UpdateFailed | Added(n: nat)

  predicate Covers(attendees: seq<Attendee>, email: string) {
    exists i :: 0 <= i < |attendees| && SameEmail(attendees[i].email, email)
  }

  function AsOptional(p: Person): Attendee {
    Attendee(p.name, p.email, Role.Optional, Calendar.Blank)
  }

  /** The attendees after the people joined one by one, each unless their email is already there. */
  function Joined(attendees: seq<Attendee>, people: seq<Person>): seq<Attendee> {
    if people == [] then attendees
    else
      var before, p := Joined(attendees, people[..|people| - 1]), people[|people| - 1];
      if Covers(before, p.email) then before else before + [AsOptional(p)]
  }

  /** The lower-case emails listed, the keys of the `seen` map. */
  function Emails(attendees: seq<Attendee>): set<string> {
    set a | a in attendees :: Lower(a.email)
  }

  function TeamEmails(people: seq<Person>): set<string> {
    set p | p in people :: Lower(p.email)
  }

  lemma CoversIsSeen(attendees: seq<Attendee>, email: string)
    ensures Covers(attendees, email) <==> Lower(email) in Emails(attendees)
  {
    if Covers(attendees, email) {
      var i :| 0 <= i < |attendees| && SameEmail(attendees[i].email, email);
      assert attendees[i] in attendees;
    }
  }

  lemma EmailsGrow(attendees: seq<Attendee>, a: Attendee)
    ensures Emails(attendees + [a]) == Emails(attendees) + {Lower(a.email)}
  {
    assert forall x :: x in attendees + [a] <==> x in attendees || x == a;
  }

  /** The provider's copy of the hold. */
  class Provider {
    var stored: Listing
    var sent: nat

    constructor (hold: Listing)
      ensures stored == hold && sent == 0
    {
      stored, sent := hold, 0;
    }

    /** promoteHold. `accepts` tells whether the provider takes the update. */
    method PromoteHold(hold: Listing, team: Team, accepts: bool) returns (r: Outcome)
      modifies this
      ensures r == TeamMissing <==> team.NoDirectory?
      ensures r == TeamFailed <==> team.Unresolved?
      ensures r == NothingToAdd <==> team.Members? && Joined(hold.attendees, team.people) == hold.attendees
      ensures r == UpdateFailed ==> !accepts
      ensures r.Added? ==>
                && accepts && team.Members?
                && stored == Listing(Joined(hold.attendees, team.people),
                                     if hold.showAs.None? then Some(ShowFree) else hold.showAs)
                && sent == old(sent) + 1
                && r.n == |stored.attendees| - |hold.attendees| > 0
      ensures !r.Added? ==> stored == old(stored) && sent == old(sent)
    {
      if team.NoDirectory? { return TeamMissing; }
      if team.Unresolved? { return TeamFailed; }
      var seen := Emails(hold.attendees);
      var attendees, added := hold.attendees, 0;
      for i := 0 to |team.people|
        invariant stored == old(stored) && sent == old(sent)
        invariant attendees == Joined(hold.attendees, team.people[..i])
        invariant seen == Emails(attendees)
        invariant added == |attendees| - |hold.attendees| >= 0
        invariant added == 0 ==> attendees == hold.attendees
      {
        var person := team.people[i];
        assert team.people[..i + 1][..i] == team.people[..i];
        CoversIsSeen(attendees, person.email);
        if Lower(person.email) in seen { continue; }
        EmailsGrow(attendees, AsOptional(person));
        attendees := attendees + [AsOptional(person)];
        seen := seen + {Lower(person.email)};
        added := added + 1;
      }
      assert team.people[..|team.people|] == team.people;
      if added == 0 { return NothingToAdd; }
      var showAs := if hold.showAs.None? then Some(ShowFree) else hold.showAs;
      if !accepts { return UpdateFailed; }
      stored, sent := Listing(attendees, showAs), sent + 1;
      r := Added(added);
    }
  }

  // ---------------------------------------------------------------------------------------
  // What joining means
  // ---------------------------------------------------------------------------------------

  /** Person `k` of the list is the first with their email, and nobody had it before. */
  ghost predicate IsNew(attendees: seq<Attendee>, people: seq<Person>, k: int) {
    && 0 <= k < |people|
    && !Covers(attendees, people[k].email)
    && forall j :: 0 <= j < k ==> !SameEmail(people[j].email, people[k].email)
  }

  /** Nobody listed is lost, moved or changed; everybody of the team is listed; and the emails are those
      listed before and the team's, no others. */
  lemma {:induction false} JoinedCoversTheTeam(attendees: seq<Attendee>, people: seq<Person>)
    ensures attendees <= Joined(attendees, people)
    ensures Emails(Joined(attendees, people)) == Emails(attendees) + TeamEmails(people)
  {
    if people != [] {
      var front, p := people[..|people| - 1], people[|people| - 1];
      JoinedCoversTheTeam(attendees, front);
      var before := Joined(attendees, front);
      assert people == front + [p];
      assert TeamEmails(people) == TeamEmails(front) + {Lower(p.email)} by {
        assert forall x :: x in people <==> x in front || x == p;
      }
      CoversIsSeen(before, p.email);
      EmailsGrow(before, AsOptional(p));
    }
  }

  /** Each added attendee is an optional member of the team, listed under an email nobody else has. */
  lemma {:induction false} JoinedAddsEachOnce(attendees: seq<Attendee>, people: seq<Person>, k: nat)
    requires |attendees| <= k < |Joined(attendees, people)|
    ensures var r := Joined(attendees, people);
            && r[k].role == Role.Optional && r[k].response == Calendar.Blank
            && (exists i :: IsNew(attendees, people, i) && r[k].name == people[i].name && r[k].email == people[i].email)
            && forall j :: 0 <= j < |r| && j != k ==> !SameEmail(r[j].email, r[k].email)
    decreases |people|
  {
    var n := |people| - 1;
    var front, p := people[..n], people[n];
    var before, r := Joined(attendees, front), Joined(attendees, people);
    JoinedCoversTheTeam(attendees, front);
    if k < |before| {
      JoinedAddsEachOnce(attendees, front, k);
      var i :| IsNew(attendees, front, i) && before[k].name == front[i].name && before[k].email == front[i].email;
      assert forall j :: 0 <= j < i ==> people[j] == front[j];
      assert IsNew(attendees, people, i) && r[k] == before[k] && people[i] == front[i];
      if r != before { assert SameEmail(before[k].email, p.email) ==> Covers(before, p.email); }
    } else {
      NewcomerIsNew(attendees, people);
      assert forall j :: 0 <= j < |before| ==> !SameEmail(before[j].email, p.email);
    }
  }

  lemma NewcomerIsNew(attendees: seq<Attendee>, people: seq<Person>)
    requires people != [] && !Covers(Joined(attendees, people[..|people| - 1]), people[|people| - 1].email)
    ensures IsNew(attendees, people, |people| - 1)
  {
    var n := |people| - 1;
    var front, p := people[..n], people[n];
    var before := Joined(attendees, front);
    JoinedCoversTheTeam(attendees, front);
    CoversIsSeen(before, p.email);
    CoversIsSeen(attendees, p.email);
    forall j | 0 <= j < n
      ensures !SameEmail(people[j].email, p.email)
    {
      assert people[j] == front[j] && front[j] in front;
    }
  }

  lemma {:induction false} NothingNewJoins(attendees: seq<Attendee>, people: seq<Person>)
    requires TeamEmails(people) <= Emails(attendees)
    ensures Joined(attendees, people) == attendees
  {
    if people != [] {
      var front, p := people[..|people| - 1], people[|people| - 1];
      assert people == front + [p];
      assert forall x :: x in front ==> x in people;
      assert p in people && Lower(p.email) in TeamEmails(people);
      NothingNewJoins(attendees, front);
      CoversIsSeen(attendees, p.email);
    }
  }

  /** Main result: the fan-out is idempotent. Repeating it for the same team, or any part of it, in any
      order and spelling, adds nobody; and it adds somebody only if some email was missing. */
  lemma {:induction false} FanOutIsIdempotent(attendees: seq<Attendee>, people: seq<Person>, again: seq<Person>)
    requires TeamEmails(again) <= Emails(attendees) + TeamEmails(people)
    ensures Joined(Joined(attendees, people), again) == Joined(attendees, people)
    ensures Joined(attendees, people) == attendees <==> TeamEmails(people) <= Emails(attendees)
  {
    JoinedCoversTheTeam(attendees, people);
    NothingNewJoins(Joined(attendees, people), again);
    if TeamEmails(people) <= Emails(attendees) { NothingNewJoins(attendees, people); }
  }

  /** Re-spelling the team adds nobody, whoever was listed before. */
  lemma {:induction false} RespelledTeamAddsNobody(attendees: seq<Attendee>, people: seq<Person>, again: seq<Person>)
    requires forall i :: 0 <= i < |again| ==>
               exists j :: 0 <= j < |people| && Respelled(people[j].email, again[i].email)
    ensures Joined(Joined(attendees, people), again) == Joined(attendees, people)
  {
    forall p | p in again
      ensures Lower(p.email) in TeamEmails(people)
    {
      var i :| 0 <= i < |again| && again[i] == p;
      var j :| 0 <= j < |people| && Respelled(people[j].email, again[i].email);
      SameEmailExactly(people[j].email, p.email);
      assert people[j] in people;
    }
    FanOutIsIdempotent(attendees, people, again);
  }

  /** A notify step repeated after a crash: the hold it reads back covers the team, so nothing is sent. */
  method NotifyTwice(p: Provider, team: Team, first: bool, second: bool) returns (r: Outcome, again: Outcome)
    modifies p
    ensures r.Added? ==> again == NothingToAdd && p.sent == old(p.sent) + 1
    ensures r == NothingToAdd ==> again == NothingToAdd && p.sent == old(p.sent)
    ensures r.Added? ==> team.Members? && p.stored.attendees == Joined(old(p.stored).attendees, team.people)
  {
    r := p.PromoteHold(p.stored, team, first);
    if r.Added? { FanOutIsIdempotent(old(p.stored).attendees, team.people, team.people); }
    again := p.PromoteHold(p.stored, team, second);
  }

  // ---------------------------------------------------------------------------------------
  // Inviting the next approver
  // ---------------------------------------------------------------------------------------

  /** inviteRequired: the loop looking for a duplicate, then the append. */
  method InviteRequired(hold: Listing, person: Person) returns (r: Listing)
    ensures r.showAs == hold.showAs && hold.attendees <= r.attendees
    ensures Covers(hold.attendees, person.email) ==> r == hold
    ensures !Covers(hold.attendees, person.email) ==>
              r.attendees == hold.attendees + [Attendee(person.name, person.email, Required, Calendar.Blank)]
    ensures Covers(r.attendees, person.email)
  {
    for i := 0 to |hold.attendees|
      invariant forall j :: 0 <= j < i ==> !SameEmail(hold.attendees[j].email, person.email)
    {
      if SameEmail(hold.attendees[i].email, person.email) { return hold; }
    }
    r := hold.(attendees := hold.attendees + [Attendee(person.name, person.email, Required, Calendar.Blank)]);
    assert SameEmail(r.attendees[|hold.attendees|].email, person.email);
  }

  /** Adding people never changes what an approver already listed has answered. */
  lemma {:induction false} RepliesSurviveAdditions(attendees: seq<Attendee>, more: seq<Attendee>, email: string)
    requires Covers(attendees, email)
    ensures ReplyOf(attendees + more, email) == ReplyOf(attendees, email)
  {
    assert (attendees + more)[0] == attendees[0];
    if !SameEmail(attendees[0].email, email) {
      assert (attendees + more)[1..] == attendees[1..] + more;
      var i :| 0 <= i < |attendees| && SameEmail(attendees[i].email, email);
      assert attendees[1..][i - 1] == attendees[i];
      RepliesSurviveAdditions(attendees[1..], more, email);
    }
  }
}
