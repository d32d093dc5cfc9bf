/**
 * The ticket-booking endpoint: a slot-filling dialogue that collects a
 * name, an e-mail address, a date and a time from free text, one request
 * at a time, in an in-memory table keyed by user and conversation.
 */
module Tickets {
  import opened Base
  import opened Text
  import opened Patterns

  /* ---------------- keys ---------------- */

  /** The key as written: the two identifiers joined by a colon. */
  function GetKey(user: string, conversation: string): (k: string)
    ensures |k| == |user| + 1 + |conversation| && k[|user|] == ':'
    ensures k[..|user|] == user && k[|user| + 1..] == conversation
  {
    user + ":" + conversation
  }

  /** Two different (user, conversation) pairs share one key, and so one
      booking, when an identifier contains a colon. */
  lemma KeyCollision()
    ensures ("a:b", "c") != ("a", "b:c")
    ensures GetKey("a:b", "c") == GetKey("a", "b:c")
  {
    assert GetKey("a:b", "c") == "a:b:c";
    assert GetKey("a", "b:c") == "a:b:c";
  }

  /** The key as intended: the pair itself. */
  type Key = (string, string)

  function KeyOf(user: string, conversation: string): (k: Key)
    ensures k.0 == user && k.1 == conversation
  {
    (user, conversation)
  }

  /** Different requesters never share a booking. */
  lemma KeyOfInjective(u1: string, c1: string, u2: string, c2: string)
    requires KeyOf(u1, c1) == KeyOf(u2, c2)
    ensures u1 == u2 && c1 == c2
  {}

  /* ---------------- extractors ---------------- */

  const NameIs := Pattern(["name is "], RestOfLine)

  /** `re.search(r'name is (.*)', text.lower())`, group 1 title-cased. */
  function ExtractName(text: string): (r: Option<string>)
    ensures r.Some? ==> |r.value| <= |text|
  {
    match Search(Lower(text), NameIs)
    case Some(g) => Some(Title(g))
    case None => None
  }

  /** A name is found exactly when the lowered text says "name is ". */
  lemma NameFoundIff(text: string)
    ensures ExtractName(text).Some? <==> Contains(Lower(text), "name is ")
  {
    var t := Lower(text);
    if Contains(t, "name is ") {
      var j :| 0 <= j <= |t| && StartsAt(t, j, "name is ");
      assert HeadsAt(t, j, NameIs.heads, NameIs.tail).Some?;
      SearchFromReaches(t, NameIs, 0, j);
    } else {
      SearchNeedsHead(t, NameIs);
    }
  }

  /** The name is the rest of the line after the first "name is " of the
      lowered text, title-cased. */
  lemma NameIsRestOfLine(text: string, j: nat)
    requires StartsAt(Lower(text), j, "name is ")
    requires forall k | 0 <= k < j :: !StartsAt(Lower(text), k, "name is ")
    ensures ExtractName(text) == Some(Title(Lower(text)[j + 8..LineEnd(Lower(text), j + 8)]))
  {
    var t := Lower(text);
    forall k | 0 <= k < j
      ensures HeadsAt(t, k, NameIs.heads, NameIs.tail).None?
    {
      HeadsAtNone(t, k, NameIs.heads, NameIs.tail);
    }
    assert HeadsAt(t, j, NameIs.heads, NameIs.tail) == Some((j + 8, LineEnd(t, j + 8)));
    SearchFromFirst(t, NameIs, 0, j);
  }

  /** `[\w\.-]+@[\w\.-]+` tried at `i`: both runs are maximal, since
      neither can end on a character of its class. */
  function EmailAt(t: string, i: nat): (r: Option<nat>)
    requires i <= |t|
    ensures r.Some? ==> i < r.value <= |t|
  {
    var n := RunLen(t, i, IsNameChar);
    if n > 0 && i + n < |t| && t[i + n] == '@' then
      var m := RunLen(t, i + n + 1, IsNameChar);
      if m > 0 then Some(i + n + 1 + m) else None
    else None
  }

  /** The match with the smallest start `>= i`, as a span. */
  function EmailFrom(t: string, i: nat): (r: Option<(nat, nat)>)
    requires i <= |t|
    ensures r.Some? ==> i <= r.value.0 < r.value.1 <= |t|
    ensures r.Some? ==> EmailAt(t, r.value.0) == Some(r.value.1)
    decreases |t| - i
  {
    var here := EmailAt(t, i);
    if here.Some? then Some((i, here.value))
    else if i == |t| then None
    else EmailFrom(t, i + 1)
  }

  /** An address: one `@` with a nonempty run of `[\w.-]` on each side. */
  predicate EmailShaped(s: string) {
    exists k | 0 < k < |s| - 1 :: s[k] == '@' && NameChars(s[..k]) && NameChars(s[k + 1..])
  }

  /** An `@` with a `[\w.-]` character on each side. */
  predicate AtSign(t: string, k: int) {
    0 < k < |t| - 1 && t[k] == '@' && IsNameChar(t[k - 1]) && IsNameChar(t[k + 1])
  }

  /** `re.search(r'[\w\.-]+@[\w\.-]+', text).group(0)`, on the text as given. */
  function ExtractEmail(text: string): (r: Option<string>)
    ensures r.Some? ==> EmailShaped(r.value)
  {
    match EmailFrom(text, 0)
    case Some(sp) =>
      EmailShape(text, sp.0);
      Some(text[sp.0..sp.1])
    case None => None
  }

  lemma EmailShape(t: string, i: nat)
    requires i <= |t| && EmailAt(t, i).Some?
    ensures EmailShaped(t[i..EmailAt(t, i).value])
  {
    var n := RunLen(t, i, IsNameChar);
    var m := RunLen(t, i + n + 1, IsNameChar);
    RunLenFacts(t, i, IsNameChar);
    RunLenFacts(t, i + n + 1, IsNameChar);
    var s := t[i..i + n + 1 + m];
    assert s[n] == '@';
    assert NameChars(s[..n]) by {
      forall j | 0 <= j < n ensures IsNameChar(s[..n][j]) {
        assert s[..n][j] == t[i + j];
      }
    }
    var domain := s[n + 1..];
    assert NameChars(domain) by {
      forall j | 0 <= j < |domain| ensures IsNameChar(domain[j]) {
        assert domain[j] == t[i + n + 1 + j];
      }
    }
  }

  lemma {:induction false} EmailFromReaches(t: string, i: nat, j: nat)
    requires i <= j <= |t| && EmailAt(t, j).Some?
    ensures EmailFrom(t, i).Some?
    decreases j - i
  {
    if EmailAt(t, i).None? {
      EmailFromReaches(t, i + 1, j);
    }
  }

  lemma {:induction false} EmailFromNone(t: string, i: nat, j: nat)
    requires i <= j <= |t| && EmailFrom(t, i).None?
    ensures EmailAt(t, j).None?
    decreases j - i
  {
    if i < j {
      EmailFromNone(t, i + 1, j);
    }
  }

  /** An address is found exactly when some `@` has a `[\w.-]` character
      on each side. */
  lemma EmailFoundIff(text: string)
    ensures ExtractEmail(text).Some? <==> exists k :: AtSign(text, k)
  {
    if k :| AtSign(text, k) {
      EmailFoundAt(text, k);
    }
    if ExtractEmail(text).Some? {
      EmailFoundHasAt(text);
    }
  }

  /** An '@' between two name characters is found. */
  lemma EmailFoundAt(text: string, k: int)
    requires AtSign(text, k)
    ensures ExtractEmail(text).Some?
  {
    RunLenIs(text, k - 1, 1, IsNameChar);
    assert RunLen(text, k + 1, IsNameChar) > 0;
    assert EmailAt(text, k - 1).Some?;
    EmailFromReaches(text, 0, k - 1);
  }

  /** A found address sits on such an '@'. */
  lemma EmailFoundHasAt(text: string)
    requires ExtractEmail(text).Some?
    ensures exists k :: AtSign(text, k)
  {
    var sp := EmailFrom(text, 0).value;
    var i := sp.0;
    var n := RunLen(text, i, IsNameChar);
    RunLenFacts(text, i, IsNameChar);
    assert AtSign(text, i + n);
  }

  const Months := ["jan", "feb", "mar", "apr", "may", "jun", "jul", "aug", "sep", "oct", "nov", "dec"]

  predicate MonthAt(t: string, q: int) {
    exists k | 0 <= k < |Months| :: StartsAt(t, q, Months[k])
  }

  /** End of `\d{1,2}` at a digit `i`: two digits when there are two. */
  function DigitsEnd(t: string, i: nat): (p: nat)
    requires i < |t| && IsDigit(t[i])
    ensures i < p <= i + 2 && p <= |t|
    ensures forall j | i <= j < p :: IsDigit(t[j])
  {
    if i + 1 < |t| && IsDigit(t[i + 1]) then i + 2 else i + 1
  }

  /** `\d{1,2}\s*(jan|...|dec)?` tried at `i`: it cannot fail at a digit,
      and the first way it succeeds takes both digits, every space after
      them and the month when one follows. */
  function DateAt(t: string, i: nat): (r: Option<nat>)
    requires i <= |t|
    ensures r.Some? <==> i < |t| && IsDigit(t[i])
    ensures r.Some? ==> i < r.value <= |t|
  {
    if i < |t| && IsDigit(t[i]) then
      var p := DigitsEnd(t, i);
      var q := p + RunLen(t, p, IsSpace);
      Some(if MonthAt(t, q) then q + 3 else q)
    else None
  }

  function DateFrom(t: string, i: nat): (r: Option<(nat, nat)>)
    requires i <= |t|
    ensures r.Some? ==> i <= r.value.0 < r.value.1 <= |t| && IsDigit(t[r.value.0])
    ensures r.Some? ==> forall j | i <= j < r.value.0 :: !IsDigit(t[j])
    ensures r.None? <==> forall j | i <= j < |t| :: !IsDigit(t[j])
    decreases |t| - i
  {
    var here := DateAt(t, i);
    if here.Some? then Some((i, here.value))
    else if i == |t| then None
    else DateFrom(t, i + 1)
  }

  /** `re.search(r'\d{1,2}\s*(jan|...|dec)?', text.lower()).group(0)`:
      found exactly when the text has a digit, and it starts with the
      first one. */
  function ExtractDate(text: string): (r: Option<string>)
    ensures r.None? <==> forall j | 0 <= j < |text| :: !IsDigit(text[j])
    ensures r.Some? ==> r.value != [] && IsDigit(r.value[0])
  {
    var t := Lower(text);
    assert forall j | 0 <= j < |text| :: IsDigit(t[j]) == IsDigit(text[j]);
    match DateFrom(t, 0)
    case Some(sp) => Some(t[sp.0..sp.1])
    case None => None
  }

  /** `\d{1,2}(:\d{2})?\s*(am|pm)` tried at `i`. Only the greedy path can
      succeed: dropping the second digit leaves a digit where the rest
      needs a colon, a space or a letter, and dropping the minutes or
      shortening the spaces leaves a colon or a space where `am`/`pm`
      must begin. */
  function TimeAt(t: string, i: nat): (r: Option<nat>)
    requires i <= |t|
    ensures r.Some? ==> i + 3 <= r.value <= |t| && IsDigit(t[i])
    ensures r.Some? ==> StartsAt(t, r.value - 2, "am") || StartsAt(t, r.value - 2, "pm")
  {
    if i < |t| && IsDigit(t[i]) then
      var p := DigitsEnd(t, i);
      var q := if p + 2 < |t| && t[p] == ':' && IsDigit(t[p + 1]) && IsDigit(t[p + 2]) then p + 3 else p;
      var s := q + RunLen(t, q, IsSpace);
      if StartsAt(t, s, "am") || StartsAt(t, s, "pm") then Some(s + 2) else None
    else None
  }

  /** No match of the time expression starts at or after `i`. */
  predicate NoTimeFrom(t: string, i: nat) {
    forall j | i <= j <= |t| :: TimeAt(t, j).None?
  }

  /** Ends in `am` or `pm`. */
  predicate Meridiem(s: string) {
    |s| >= 2 && (s[|s| - 2..] == "am" || s[|s| - 2..] == "pm")
  }

  function TimeFrom(t: string, i: nat): (r: Option<(nat, nat)>)
    requires i <= |t|
    ensures r.Some? ==> i <= r.value.0 <= |t| && TimeAt(t, r.value.0) == Some(r.value.1)
    ensures r.Some? ==> forall j | i <= j < r.value.0 :: TimeAt(t, j).None?
    ensures r.None? ==> NoTimeFrom(t, i)
    decreases |t| - i
  {
    var here := TimeAt(t, i);
    if here.Some? then Some((i, here.value))
    else if i == |t| then None
    else TimeFrom(t, i + 1)
  }

  /** `re.search(r'\d{1,2}(:\d{2})?\s*(am|pm)', text.lower()).group(0)`:
      the leftmost match, which starts with a digit and ends in `am` or
      `pm`. */
  function ExtractTime(text: string): (r: Option<string>)
    ensures r.Some? ==> |r.value| >= 3 && IsDigit(r.value[0]) && Meridiem(r.value)
    ensures r.None? <==> NoTimeFrom(Lower(text), 0)
  {
    var t := Lower(text);
    match TimeFrom(t, 0)
    case Some(sp) =>
      TimeSpan(t, sp.0, sp.1);
      Some(t[sp.0..sp.1])
    case None => None
  }

  /** The text of a time match starts with a digit and ends in `am` or `pm`. */
  lemma TimeSpan(t: string, i: nat, e: nat)
    requires i <= |t| && TimeAt(t, i) == Some(e)
    ensures i + 3 <= e <= |t| && IsDigit(t[i..e][0]) && Meridiem(t[i..e])
  {
    assert t[i..e][|t[i..e]| - 2..] == t[e - 2..e];
  }

  /* ---------------- the booking ---------------- */

  datatype Booking = Booking(
    name: Option<string>, email: Option<string>, date: Option<string>, time: Option<string>,
    confirmed: bool)

  /** A first request from a requester starts from this booking. */
  const Fresh := Booking(None, None, None, None, false)

  predicate AllFilled(b: Booking) {
    Filled(b.name) && Filled(b.email) && Filled(b.date) && Filled(b.time)
  }

  /** A booking is confirmed only once all four details are known. */
  predicate Consistent(b: Booking) {
    b.confirmed ==> AllFilled(b)
  }

  /** One request's extracted details merged into a booking: the name and
      the address are replaced by any nonempty new value, the date and the
      time are set once and then kept, and the booking is confirmed once
      all four are known. */
  function Merge(b: Booking, name: Option<string>, email: Option<string>, date: Option<string>,
                 time: Option<string>): (r: Booking)
    ensures Filled(name) ==> r.name == name
    ensures !Filled(name) ==> r.name == b.name
    ensures Filled(email) ==> r.email == email
    ensures !Filled(email) ==> r.email == b.email
    ensures Filled(b.date) ==> r.date == b.date
    ensures !Filled(b.date) && Filled(date) ==> r.date == date
    ensures !Filled(date) ==> r.date == b.date
    ensures Filled(b.time) ==> r.time == b.time
    ensures !Filled(b.time) && Filled(time) ==> r.time == time
    ensures !Filled(time) ==> r.time == b.time
    ensures r.confirmed <==> b.confirmed || AllFilled(r)
  {
    var s := Booking(
      if Filled(name) then name else b.name,
      if Filled(email) then email else b.email,
      if Filled(date) && !Filled(b.date) then date else b.date,
      if Filled(time) && !Filled(b.time) then time else b.time,
      b.confirmed);
    if AllFilled(s) then s.(confirmed := true) else s
  }

  /** One request against a booking. */
  function Turn(b: Booking, text: string): Booking {
    Merge(b, ExtractName(text), ExtractEmail(text), ExtractDate(text), ExtractTime(text))
  }

  /** A detail once known stays known. */
  lemma TurnKeepsFilled(b: Booking, text: string)
    ensures Filled(b.name) ==> Filled(Turn(b, text).name)
    ensures Filled(b.email) ==> Filled(Turn(b, text).email)
    ensures AllFilled(b) ==> AllFilled(Turn(b, text))
  {}

  /** After any request, a consistent booking is confirmed exactly when all
      four details are known. */
  lemma TurnConfirmedIff(b: Booking, text: string)
    requires Consistent(b)
    ensures Consistent(Turn(b, text))
    ensures Turn(b, text).confirmed <==> AllFilled(Turn(b, text))
  {
    TurnKeepsFilled(b, text);
  }

  /** The booking after a sequence of requests. */
  function Turns(b: Booking, texts: seq<string>): Booking
    decreases |texts|
  {
    if texts == [] then b else Turns(Turn(b, texts[0]), texts[1..])
  }

  /** The first date any of the requests mentions. */
  function FirstDate(texts: seq<string>): (r: Option<string>)
    ensures r.Some? ==> Filled(r)
    ensures r.None? <==> forall k | 0 <= k < |texts| :: !Filled(ExtractDate(texts[k]))
    decreases |texts|
  {
    if texts == [] then None
    else if Filled(ExtractDate(texts[0])) then ExtractDate(texts[0])
    else FirstDate(texts[1..])
  }

  /** The last name any of the requests gives. */
  function LastName(texts: seq<string>): (r: Option<string>)
    ensures r.Some? ==> Filled(r)
    ensures r.None? <==> forall k | 0 <= k < |texts| :: !Filled(ExtractName(texts[k]))
    decreases |texts|
  {
    if texts == [] then None
    else if Filled(ExtractName(texts[|texts| - 1])) then ExtractName(texts[|texts| - 1])
    else LastName(texts[..|texts| - 1])
  }

  lemma {:induction false} TurnsSnoc(b: Booking, texts: seq<string>, text: string)
    ensures Turns(b, texts + [text]) == Turn(Turns(b, texts), text)
    decreases |texts|
  {
    if texts != [] {
      assert (texts + [text])[1..] == texts[1..] + [text];
      TurnsSnoc(Turn(b, texts[0]), texts[1..], text);
    }
  }

  /** The date is the first one mentioned: later dates never replace it. */
  lemma {:induction false} DateWriteOnce(b: Booking, texts: seq<string>)
    ensures Turns(b, texts).date == if Filled(b.date) || FirstDate(texts).None? then b.date else FirstDate(texts)
    decreases |texts|
  {
    if texts != [] {
      DateWriteOnce(Turn(b, texts[0]), texts[1..]);
    }
  }

  /** The time is kept once set, whatever later requests say. */
  lemma {:induction false} TimeWriteOnce(b: Booking, texts: seq<string>)
    requires Filled(b.time)
    ensures Turns(b, texts).time == b.time
    decreases |texts|
  {
    if texts != [] {
      TimeWriteOnce(Turn(b, texts[0]), texts[1..]);
    }
  }

  /** The name is the last one given: each new name overwrites the old. */
  lemma {:induction false} NameLastWins(b: Booking, texts: seq<string>)
    ensures Turns(b, texts).name == if LastName(texts).None? then b.name else LastName(texts)
    decreases |texts|
  {
    if texts != [] {
      var init := texts[..|texts| - 1];
      var last := texts[|texts| - 1];
      assert texts == init + [last];
      TurnsSnoc(b, init, last);
      NameLastWins(b, init);
    }
  }

  /** Every booking reachable from a fresh one is consistent. */
  lemma {:induction false} TurnsConsistent(b: Booking, texts: seq<string>)
    requires Consistent(b)
    ensures Consistent(Turns(b, texts))
    decreases |texts|
  {
    if texts != [] {
      TurnConfirmedIff(b, texts[0]);
      TurnsConsistent(Turn(b, texts[0]), texts[1..]);
    }
  }

  /* ---------------- the answer ---------------- */

  /** The reply: a question for the first missing detail, or the
      confirmation with all four. */
  datatype Answer =
    | AskName | AskEmail | AskDate | AskTime
    | Confirmed(name: string, email: string, date: string, time: string)

  /** The details are asked for in the order name, e-mail, date, time. */
  function AnswerFor(b: Booking): (a: Answer)
    ensures a.Confirmed? <==> AllFilled(b)
    ensures a == AskName <==> !Filled(b.name)
    ensures a == AskEmail <==> Filled(b.name) && !Filled(b.email)
    ensures a == AskDate <==> Filled(b.name) && Filled(b.email) && !Filled(b.date)
    ensures a == AskTime <==> Filled(b.name) && Filled(b.email) && Filled(b.date) && !Filled(b.time)
    ensures a.Confirmed? ==> a == Confirmed(b.name.value, b.email.value, b.date.value, b.time.value)
  {
    if !Filled(b.name) then AskName
    else if !Filled(b.email) then AskEmail
    else if !Filled(b.date) then AskDate
    else if !Filled(b.time) then AskTime
    else Confirmed(b.name.value, b.email.value, b.date.value, b.time.value)
  }

  /** The answer text of the service. */
  function AnswerText(a: Answer): string {
    match a
    case AskName => "Please provide your name."
    case AskEmail => "Please provide your email address."
    case AskDate => "Please provide the booking date."
    case AskTime => "Please provide the booking time (e.g., 5 PM)."
    case Confirmed(name, email, date, time) =>
      "✅ Booking Confirmed!\n\nName: " + name + "\nEmail: " + email + "\nDate: " + date
      + "\nTime: " + time + "\n\nYour ticket has been successfully booked."
  }

  /** For a booking reached by requests, the confirmation is given exactly
      when the booking is confirmed. */
  lemma ConfirmationIffConfirmed(b: Booking, text: string)
    requires Consistent(b)
    ensures AnswerFor(Turn(b, text)).Confirmed? <==> Turn(b, text).confirmed
  {
    TurnConfirmedIff(b, text);
  }

  /** The booking a requester has, or the fresh one. */
  function Current(bookings: map<Key, Booking>, k: Key): Booking {
    if k in bookings then bookings[k] else Fresh
  }

  /** The details one request carries, written into the booking: the name
      and the address whenever one is found, the date and the time only
      while they are still missing. */
  method Absorb(b: Booking, question: string) returns (state: Booking)
    ensures state == Merge(b, ExtractName(question), ExtractEmail(question), ExtractDate(question),
                           ExtractTime(question)).(confirmed := b.confirmed)
  {
    state := b;
    var name := ExtractName(question);
    if Filled(name) {
      state := state.(name := name);
    }
    var email := ExtractEmail(question);
    if Filled(email) {
      state := state.(email := email);
    }
    var date := ExtractDate(question);
    if Filled(date) && !Filled(state.date) {
      state := state.(date := date);
    }
    var time := ExtractTime(question);
    if Filled(time) && !Filled(state.time) {
      state := state.(time := time);
    }
  }

  /** The in-memory table of bookings. */
  class TicketDesk {
    var bookings: map<Key, Booking>

    ghost predicate Valid()
      reads this
    {
      forall k | k in bookings :: Consistent(bookings[k])
    }

    constructor()
      ensures bookings == map[] && Valid()
    {
      bookings := map[];
    }

    /** One request: only the requester's own booking changes, it becomes
        the one `Turn` computes, and the answer is the one for it. */
    method HandleTicket(user: string, conversation: string, question: string) returns (answer: Answer)
      requires Valid()
      modifies this
      ensures Valid()
      ensures bookings == old(bookings)[KeyOf(user, conversation) := Turn(Current(old(bookings), KeyOf(user, conversation)), question)]
      ensures answer == AnswerFor(bookings[KeyOf(user, conversation)])
    {
      var key := KeyOf(user, conversation);
      if key !in bookings {
        bookings := bookings[key := Fresh];
      }
      var state := bookings[key];
      ghost var before := state;
      state := Absorb(state, question);
      TurnConfirmedIff(before, question);
      if !Filled(state.name) {
        answer := AskName;
      } else if !Filled(state.email) {
        answer := AskEmail;
      } else if !Filled(state.date) {
        answer := AskDate;
      } else if !Filled(state.time) {
        answer := AskTime;
      } else {
        state := state.(confirmed := true);
        answer := Confirmed(state.name.value, state.email.value, state.date.value, state.time.value);
      }
      bookings := bookings[key := state];
    }
  }
}
