/** The data the gates read: a hold, its attendees and their replies
    (internal/calendar/calendar.go, cmd/check.go, cmd/daemon.go). */
module Calendar {

  datatype Response = Blank | NoReply | NotResponded | Tentative | Accepted | Declined

  datatype Role = NoRole | Required | Optional

  /** The free/busy status a calendar shows for an event. */
  datatype ShowAs = ShowFree | ShowTentative | ShowBusy | ShowOof

  datatype Attendee = Attendee(name: string, email: string, role: Role, response: Response)

  datatype Hold = Hold(id: string, subject: string, attendees: seq<Attendee>)

  /** An email compares by its lower-case form. */
  function LowerChar(c: char): char {
    if 'A' <= c <= 'Z' then c - 'A' + 'a' else c
  }

  function Lower(s: string): string {
    seq(|s|, i requires 0 <= i < |s| => LowerChar(s[i]))
  }

  predicate SameEmail(a: string, b: string) {
    Lower(a) == Lower(b)
  }

  /** Two characters are one, or the two cases of one letter. */
  predicate SameLetter(c: char, d: char) {
    c == d || ('A' <= c <= 'Z' && d as int == c as int + 32) || ('A' <= d <= 'Z' && c as int == d as int + 32)
  }

  /** The same text up to the case of its letters. */
  ghost predicate Respelled(a: string, b: string) {
    |a| == |b| && forall i :: 0 <= i < |a| ==> SameLetter(a[i], b[i])
  }

  /** Emails that compare equal are exactly the re-spellings of each other. */
  lemma SameEmailExactly(a: string, b: string)
    ensures SameEmail(a, b) <==> Respelled(a, b)
  {
    assert forall i :: 0 <= i < |a| ==> Lower(a)[i] == LowerChar(a[i]);
    assert forall i :: 0 <= i < |b| ==> Lower(b)[i] == LowerChar(b[i]);
    if SameEmail(a, b) {
      assert |Lower(a)| == |Lower(b)|;
      forall i | 0 <= i < |a|
        ensures SameLetter(a[i], b[i])
      {
        assert Lower(a)[i] == Lower(b)[i];
      }
    }
  }

  /** Re-spelling the email that is asked for, or those that are listed, leaves the reply. */
  lemma {:induction false} RepliesIgnoreSpelling(attendees: seq<Attendee>, others: seq<Attendee>, a: string, b: string)
    requires Respelled(a, b) && |attendees| == |others|
    requires forall i :: 0 <= i < |attendees| ==>
               Respelled(attendees[i].email, others[i].email) && attendees[i].response == others[i].response
    ensures ReplyOf(attendees, a) == ReplyOf(others, b)
  {
    if attendees != [] {
      SameEmailExactly(a, b);
      SameEmailExactly(attendees[0].email, others[0].email);
      RepliesIgnoreSpelling(attendees[1..], others[1..], a, b);
    }
  }

  /** The reply of the first attendee with the given email, or NotResponded when nobody has it. */
  function ReplyOf(attendees: seq<Attendee>, email: string): (r: Response)
    ensures r == NotResponded || exists i :: IsFirst(attendees, email, i) && attendees[i].response == r
    ensures forall i :: IsFirst(attendees, email, i) ==> r == attendees[i].response
  {
    if attendees == [] then NotResponded
    else if SameEmail(attendees[0].email, email) then
      assert IsFirst(attendees, email, 0);
      attendees[0].response
    else
      var rest := attendees[1..];
      var r := ReplyOf(rest, email);
      assert forall i :: IsFirst(rest, email, i) ==> IsFirst(attendees, email, i + 1) by {
        forall i | IsFirst(rest, email, i)
          ensures IsFirst(attendees, email, i + 1)
        {
          forall j | 0 <= j < i + 1
            ensures !SameEmail(attendees[j].email, email)
          {
            if j > 0 { assert attendees[j] == rest[j - 1]; }
          }
        }
      }
      assert forall i :: IsFirst(attendees, email, i) ==> i > 0 && IsFirst(rest, email, i - 1);
      r
  }

  /** Attendee `i` is the first one the given email names. */
  ghost predicate IsFirst(attendees: seq<Attendee>, email: string, i: int) {
    && 0 <= i < |attendees|
    && SameEmail(attendees[i].email, email)
    && forall j :: 0 <= j < i ==> !SameEmail(attendees[j].email, email)
  }

  predicate ApprovedBy(h: Hold, email: string) {
    ReplyOf(h.attendees, email) == Accepted
  }

  predicate DeclinedBy(h: Hold, email: string) {
    ReplyOf(h.attendees, email) == Declined
  }

  /** The first required attendee, or -1. */
  function FirstRequired(attendees: seq<Attendee>): (r: int)
    ensures r == -1 || (0 <= r < |attendees| && attendees[r].role == Required)
    ensures forall j :: 0 <= j < |attendees| && attendees[j].role == Required ==> 0 <= r <= j
  {
    if attendees == [] then -1
    else if attendees[0].role == Required then 0
    else
      var k := FirstRequired(attendees[1..]);
      if k < 0 then -1 else k + 1
  }

  /** Attendee `i` is the one treated as the approver: the first required one, or the first of all when
      nobody is required. */
  ghost predicate IsManager(attendees: seq<Attendee>, i: int) {
    && 0 <= i < |attendees|
    && (forall j :: 0 <= j < i ==> attendees[j].role != Required)
    && (attendees[i].role == Required
        || (i == 0 && forall j :: 0 <= j < |attendees| ==> attendees[j].role != Required))
  }

  /** The attendee treated as the approver, or nobody. */
  function ManagerAttendee(h: Hold): (r: Attendee)
    ensures h.attendees != [] ==> exists i :: IsManager(h.attendees, i) && h.attendees[i] == r
    ensures h.attendees == [] ==> r.email == "" && r.response == Blank
  {
    var k := FirstRequired(h.attendees);
    if k >= 0 then h.attendees[k]
    else if h.attendees != [] then h.attendees[0]
    else Attendee("", "", NoRole, Blank)
  }
}
