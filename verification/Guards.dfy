/** The `when` guard of a step (internal/workflow/workflow.go, When.Allows and parseDays). */
module Guards {
  import opened Base
  import Calendar

  /** `dayOfWeek` is the day set as written, empty when the guard names no days. */
  datatype When = When(dayOfWeek: string, minAttendees: int, maxAttendees: int)

  const UNGUARDED := When("", 0, 0)

  // ---------------------------------------------------------------------------------------
  // Reading a day set
  // ---------------------------------------------------------------------------------------

  /** The first place of `c` in `s`, or the length. */
  function IndexOf(s: string, c: char): (i: nat)
    ensures i <= |s| && (i < |s| ==> s[i] == c)
    ensures forall k :: 0 <= k < i ==> s[k] != c
  {
    if s == "" || s[0] == c then 0 else 1 + IndexOf(s[1..], c)
  }

  /** The pieces of `s` between the commas. */
  function Split(s: string): (pieces: seq<string>)
    ensures pieces != []
    decreases |s|
  {
    var i := IndexOf(s, ',');
    if i == |s| then [s] else [s[..i]] + Split(s[i + 1..])
  }

  function Join(pieces: seq<string>): string {
    if pieces == [] then "" else if |pieces| == 1 then pieces[0] else pieces[0] + "," + Join(pieces[1..])
  }

  /** Splitting loses nothing and leaves no comma. */
  lemma {:induction false} SplitJoins(s: string)
    ensures Join(Split(s)) == s
    ensures forall k :: 0 <= k < |Split(s)| ==> ',' !in Split(s)[k]
    decreases |s|
  {
    var i := IndexOf(s, ',');
    if i < |s| {
      var rest := s[i + 1..];
      var pieces := Split(s);
      assert pieces == [s[..i]] + Split(rest) && pieces[1..] == Split(rest);
      hide Split;
      SplitJoins(rest);
      assert s == s[..i] + "," + rest;
    }
  }

  predicate IsSpace(c: char) {
    c == ' ' || '\t' <= c <= '\r'
  }

  function Trim(s: string): (r: string)
    ensures |r| <= |s|
    ensures r != "" ==> !IsSpace(r[0]) && !IsSpace(r[|r| - 1])
  {
    if s != "" && IsSpace(s[0]) then Trim(s[1..])
    else if s != "" && IsSpace(s[|s| - 1]) then Trim(s[..|s| - 1])
    else s
  }

  /** White space alone: tabs, line breaks and blanks. */
  predicate Spaces(s: string) {
    forall k :: 0 <= k < |s| ==> s[k] as int in {9, 10, 11, 12, 13, 32}
  }

  lemma SpacesJoin(a: string, b: string)
    requires Spaces(a) && Spaces(b)
    ensures Spaces(a + b)
  {}

  lemma OneSpace(c: char)
    ensures IsSpace(c) <==> Spaces([c])
  {
    assert [c][0] == c;
  }

  lemma FrontRejoins(s: string, before: string, t: string, after: string)
    requires s != "" && s[1..] == before + t + after
    ensures s == [s[0]] + before + t + after
  {
    assert s == [s[0]] + s[1..];
  }

  lemma BackRejoins(s: string, before: string, t: string, after: string)
    requires s != "" && s[..|s| - 1] == before + t + after
    ensures s == before + t + (after + [s[|s| - 1]])
  {
    assert s == s[..|s| - 1] + [s[|s| - 1]];
  }

  lemma TrimStep(s: string)
    ensures Trim(s) == if s != "" && IsSpace(s[0]) then Trim(s[1..])
                       else if s != "" && IsSpace(s[|s| - 1]) then Trim(s[..|s| - 1])
                       else s
  {}

  /** Trimming takes all white space off both ends and nothing else. */
  lemma {:induction false} TrimTakesSpace(s: string) returns (before: string, after: string)
    ensures s == before + Trim(s) + after && Spaces(before) && Spaces(after)
    ensures var t := Trim(s); t != "" ==> !Spaces([t[0]]) && !Spaces([t[|t| - 1]])
    decreases |s|
  {
    TrimStep(s);
    assert Spaces("");
    hide Trim, Spaces;
    var t := Trim(s);
    if t != "" {
      OneSpace(t[0]);
      OneSpace(t[|t| - 1]);
    }
    if s != "" && IsSpace(s[0]) {
      before, after := TrimTakesSpace(s[1..]);
      FrontRejoins(s, before, Trim(s), after);
      OneSpace(s[0]);
      SpacesJoin([s[0]], before);
      before := [s[0]] + before;
    } else if s != "" && IsSpace(s[|s| - 1]) {
      before, after := TrimTakesSpace(s[..|s| - 1]);
      BackRejoins(s, before, Trim(s), after);
      OneSpace(s[|s| - 1]);
      SpacesJoin(after, [s[|s| - 1]]);
      after := after + [s[|s| - 1]];
    } else {
      before, after := "", "";
      assert s == "" + s + "";
    }
  }

  /** One piece of a day set: nothing, a day, or a range cut at its first dash. */
  datatype DayToken = Blank | Day(name: string) | Range(low: string, high: string)

  function Token(piece: string): DayToken {
    var t := Trim(piece);
    var i := IndexOf(t, '-');
    if t == "" then Blank else if i == |t| then Day(t) else Range(t[..i], t[i + 1..])
  }

  /** A piece is blank, a day, or a range cut at its first dash. */
  lemma TokenReads(piece: string)
    ensures match Token(piece)
            case Blank => Trim(piece) == ""
            case Day(name) => name == Trim(piece) && name != "" && '-' !in name
            case Range(low, high) => Trim(piece) == low + "-" + high && '-' !in low
  {
    var t := Trim(piece);
    var i := IndexOf(t, '-');
    hide Trim, IndexOf;
    if i < |t| { assert t == t[..i] + "-" + t[i + 1..]; }
  }

  function Tokens(spec: string): seq<DayToken> {
    var pieces := Split(spec);
    seq(|pieces|, k requires 0 <= k < |pieces| => Token(pieces[k]))
  }

  /** Weekdays count from Sunday. */
  type Weekday = d: nat | d < 7

  function ParseDay(name: string): (d: Option<nat>)
    ensures d.Some? ==> d.value < 7
  {
    match Calendar.Lower(name)
    case "sun" => Some(0)
    case "mon" => Some(1)
    case "tue" => Some(2)
    case "wed" => Some(3)
    case "thu" => Some(4)
    case "fri" => Some(5)
    case "sat" => Some(6)
    case _ => None
  }

  const DAY_NAMES: seq<string> := ["sun", "mon", "tue", "wed", "thu", "fri", "sat"]

  /** A name reads as a weekday exactly when it is that day's three letters, in either case. */
  lemma ParseDayExactly(name: string, d: Weekday)
    ensures ParseDay(name) == Some(d) <==> Calendar.Respelled(name, DAY_NAMES[d])
  {
    Calendar.SameEmailExactly(name, DAY_NAMES[d]);
    LowerDayName(d);
    hide Calendar.Respelled, Calendar.Lower;
  }

  lemma LowerDayName(d: Weekday)
    ensures Calendar.Lower(DAY_NAMES[d]) == DAY_NAMES[d]
  {}

  /** How many days after weekday `low` weekday `d` comes, going forward around the week. */
  function Gap(low: nat, d: nat): int {
    if low <= d then d - low else d + 7 - low
  }

  /** The weekdays from `low` to at most `steps` days later, wrapping past Saturday. */
  function Span(low: nat, steps: int): set<nat> {
    set d: nat | d < 7 && Gap(low, d) <= steps
  }

  /** The weekdays a token names; a range is inclusive at both ends. */
  function Named(t: DayToken): set<nat> {
    match t
    case Blank => {}
    case Day(name) => var d := ParseDay(name); if d.Some? then {d.value} else {}
    case Range(low, high) =>
      var l, h := ParseDay(low), ParseDay(high);
      if l.Some? && h.Some? then Span(l.value, Gap(l.value, h.value)) else {}
  }

  predicate Readable(t: DayToken) {
    match t
    case Blank => true
    case Day(name) => ParseDay(name).Some?
    case Range(low, high) => ParseDay(low).Some? && ParseDay(high).Some?
  }

  predicate ReadableDays(tokens: seq<DayToken>) {
    && (forall i :: 0 <= i < |tokens| ==> Readable(tokens[i]))
    && exists i :: 0 <= i < |tokens| && tokens[i] != Blank
  }

  function DaySet(tokens: seq<DayToken>): set<nat> {
    if tokens == [] then {}
    else DaySet(tokens[..|tokens| - 1]) + Named(tokens[|tokens| - 1])
  }

  predicate Allows(w: When, weekday: nat, attendees: nat) {
    && (w.dayOfWeek == "" ||
          (ReadableDays(Tokens(w.dayOfWeek)) && weekday in DaySet(Tokens(w.dayOfWeek))))
    && !(w.minAttendees > 0 && attendees < w.minAttendees)
    && !(w.maxAttendees > 0 && attendees > w.maxAttendees)
  }

  predicate WellFormed(w: When) {
    && (w.dayOfWeek == "" || ReadableDays(Tokens(w.dayOfWeek)))
    && w.minAttendees >= 0
    && w.maxAttendees >= 0
    && !(w.minAttendees > 0 && w.maxAttendees > 0 && w.minAttendees > w.maxAttendees)
  }

  /** The range loop `for d := start; ; d = (d+1)%7`, which stops after naming `high`. */
  method AddRange(named: set<nat>, low: nat, high: nat) returns (r: set<nat>)
    requires low < 7 && high < 7
    ensures r == named + Span(low, Gap(low, high))
  {
    var d := low;
    var steps := 0;
    r := named + {d};
    assert Span(low, 0) == {low};
    while d != high
      invariant d < 7 && steps == Gap(low, d)
      invariant 0 <= steps <= Gap(low, high)
      invariant r == named + Span(low, steps)
      decreases Gap(low, high) - steps
    {
      d := (d + 1) % 7;
      steps := steps + 1;
      assert Span(low, steps) == Span(low, steps - 1) + {d};
      r := r + {d};
    }
  }

  lemma DaySetGrows(tokens: seq<DayToken>, k: nat)
    requires k < |tokens|
    ensures DaySet(tokens[..k + 1]) == DaySet(tokens[..k]) + Named(tokens[k])
  {
    assert tokens[..k + 1][..k] == tokens[..k];
  }

  /** The set holds the days its pieces name, and no others. */
  lemma {:induction false} DaySetExactly(tokens: seq<DayToken>, d: nat)
    ensures d in DaySet(tokens) <==> exists k :: 0 <= k < |tokens| && d in Named(tokens[k])
  {
    if tokens != [] {
      var n := |tokens| - 1;
      var front := tokens[..n];
      DaySetExactly(front, d);
      if k :| 0 <= k < |tokens| && d in Named(tokens[k]) {
        if k < n { assert d in Named(front[k]); }
      }
      if k :| 0 <= k < n && d in Named(front[k]) { assert d in Named(tokens[k]); }
      if d in Named(tokens[n]) { assert d in DaySet(tokens); }
    }
  }

  /** A well-formed guard can hold: it allows some weekday with some number of attendees. */
  lemma WellFormedCanHold(w: When) returns (d: Weekday, n: nat)
    requires WellFormed(w)
    ensures Allows(w, d, n)
  {
    d, n := 0, w.minAttendees;
    if w.dayOfWeek != "" {
      var tokens := Tokens(w.dayOfWeek);
      var k :| 0 <= k < |tokens| && tokens[k] != Blank;
      ReadableNamesSomething(tokens[k]);
      var day :| day in Named(tokens[k]);
      DaySetExactly(tokens, day);
      d := day;
    }
  }

  /** With bounds that are not negative, a guard is well formed exactly when it allows some weekday with some
      number of attendees: a minimum above the maximum leaves nothing to allow. */
  lemma WellFormedExactly(w: When)
    requires w.minAttendees >= 0 && w.maxAttendees >= 0
    ensures WellFormed(w) <==> exists d: Weekday, n: nat :: Allows(w, d, n)
  {
    if WellFormed(w) { var d, n := WellFormedCanHold(w); }
  }

  /** The guard names weekday `d`, or no day at all. */
  predicate OnDay(w: When, d: Weekday) {
    w.dayOfWeek == "" || (ReadableDays(Tokens(w.dayOfWeek)) && d in DaySet(Tokens(w.dayOfWeek)))
  }

  /** How many attendee counts a guard with a maximum allows on a day: none on a day it does not name, and on
      the others those from the minimum to the maximum. Without a maximum only the counts below the minimum
      are denied. */
  lemma AllowedCounts(w: When, d: Weekday)
    requires w.minAttendees >= 0 && w.maxAttendees >= 0
    ensures !OnDay(w, d) ==> forall n: nat :: !Allows(w, d, n)
    ensures OnDay(w, d) && w.maxAttendees > 0 ==>
              && (forall n: nat :: Allows(w, d, n) ==> n <= w.maxAttendees)
              && |set n: nat | n <= w.maxAttendees && Allows(w, d, n)|
                 == if w.minAttendees <= w.maxAttendees then w.maxAttendees - w.minAttendees + 1 else 0
    ensures OnDay(w, d) && w.maxAttendees == 0 ==> forall n: nat :: Allows(w, d, n) <==> n >= w.minAttendees
  {
    hide ReadableDays, Tokens, DaySet;
    if OnDay(w, d) && w.maxAttendees > 0 {
      var allowed := set n: nat | n <= w.maxAttendees && Allows(w, d, n);
      assert allowed == FromTo(w.minAttendees, w.maxAttendees);
      FromToSize(w.minAttendees, w.maxAttendees);
    }
  }

  predicate IsFrom(low: int, n: int) {
    low <= n
  }

  function FromTo(low: int, high: int): set<int> {
    set n: int | low <= n <= high && IsFrom(low, n)
  }

  lemma {:induction false} FromToSize(low: int, high: int)
    ensures |FromTo(low, high)| == if low <= high then high - low + 1 else 0
    decreases high - low
  {
    if low <= high {
      FromToSize(low, high - 1);
      assert FromTo(low, high) == FromTo(low, high - 1) + {high};
    }
  }

  lemma ReadableNamesSomething(t: DayToken)
    requires Readable(t)
    ensures Named(t) == {} <==> t == Blank
  {
    if t.Range? {
      var l := ParseDay(t.low).value;
      assert Gap(l, l) == 0 && l in Named(t);
    }
  }

  /** The days of one piece; None when it is unreadable. */
  method ReadPiece(piece: string, named: set<nat>) returns (days: Option<set<nat>>)
    ensures days.Some? <==> Readable(Token(piece))
    ensures days.Some? ==> days.value == named + Named(Token(piece))
  {
    var tok := Trim(piece);
    if tok == "" { return Some(named); }
    var dash := IndexOf(tok, '-');
    var start := ParseDay(tok[..dash]);
    assert dash == |tok| ==> tok[..dash] == tok;
    if start.None? { return None; }
    if dash == |tok| { return Some(named + {start.value}); }
    var end := ParseDay(tok[dash + 1..]);
    if end.None? { return None; }
    var all := AddRange(named, start.value, end.value);
    days := Some(all);
  }

  /** parseDays, the loop over the pieces: exactly the named weekdays, and a failure exactly when some
      piece is unreadable or none names a day. */
  method ParseDays(spec: string) returns (days: Option<set<nat>>)
    ensures days.Some? <==> ReadableDays(Tokens(spec))
    ensures days.Some? ==> days.value == DaySet(Tokens(spec))
  {
    ghost var tokens := Tokens(spec);
    var pieces := Split(spec);
    var named: set<nat> := {};
    hide Split, Token, Readable, Named, DaySet;
    DaySetStarts(tokens);
    for k := 0 to |pieces|
      invariant forall i :: 0 <= i < k ==> Readable(tokens[i])
      invariant named == DaySet(tokens[..k])
      invariant named == {} <==> forall i :: 0 <= i < k ==> tokens[i] == Blank
    {
      assert tokens[k] == Token(pieces[k]);
      var more := ReadPiece(pieces[k], named);
      if more.None? { return None; }
      DaySetGrows(tokens, k);
      ReadableNamesSomething(tokens[k]);
      named := more.value;
    }
    assert tokens[..|pieces|] == tokens;
    if named == {} { return None; }
    return Some(named);
  }

  lemma DaySetStarts(tokens: seq<DayToken>)
    ensures DaySet(tokens[..0]) == {}
  {}
}
