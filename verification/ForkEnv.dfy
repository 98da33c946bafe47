/** Fork slots travel to the worker as text in its environment. */
module ForkEnv {
  import opened Types
  import opened Forks

  /** Descriptors are 32-bit signed integers. */
  const MAX_FD := 0x7fff_ffff

  // ---- Decimal numbers -----------------------------------------------------

  /** The value of a digit string, or nothing if it has another character. */
  function Value(s: string): Option<nat> {
    if s == [] then Some(0)
    else
      var c, front := s[|s| - 1], Value(s[..|s| - 1]);
      if front.Some? && '0' <= c <= '9' then Some(10 * front.value + (c - '0') as nat) else None
  }

  /** An optional sign and at least one digit, within the width. */
  function ParseFd(s: string): Option<int> {
    if s == [] then None
    else
      var digits := if s[0] == '-' || s[0] == '+' then s[1..] else s;
      var value := Value(digits);
      if digits == [] || value.None? then None
      else
        var n: int := if s[0] == '-' then 0 - value.value else value.value;
        if -MAX_FD - 1 <= n <= MAX_FD then Some(n) else None
  }

  predicate AllDigits(s: string) {
    forall i :: 0 <= i < |s| ==> '0' <= s[i] <= '9'
  }

  lemma {:induction false} DecimalValue(n: nat)
    ensures Value(Decimal(n)) == Some(n) && AllDigits(Decimal(n))
  {
    if n >= 10 {
      DecimalValue(n / 10);
      assert Decimal(n)[..|Decimal(n)| - 1] == Decimal(n / 10);
    } else {
      assert Decimal(n)[..0] == [];
    }
  }

  lemma {:induction false} DecimalParses(n: nat)
    requires n <= MAX_FD
    ensures ParseFd(Decimal(n)) == Some(n) && ':' !in Decimal(n) && ',' !in Decimal(n)
  {
    DecimalValue(n);
  }

  /** A descriptor is read in decimal, with an optional sign, if 32 bits hold it. */
  lemma {:induction false} SignedParses(n: nat)
    ensures ParseFd(Decimal(n)) == (if n <= 2147483647 then Some(n) else None)
    ensures ParseFd("+" + Decimal(n)) == (if n <= 2147483647 then Some(n) else None)
    ensures ParseFd("-" + Decimal(n)) == (if n <= 2147483648 then Some(0 - n) else None)
  {
    DecimalValue(n);
    DigitsParse(Decimal(n), n);
    PlusParses(Decimal(n), n);
    MinusParses(Decimal(n), n);
  }

  lemma {:induction false} DigitsParse(digits: string, n: nat)
    requires digits != [] && AllDigits(digits) && Value(digits) == Some(n)
    ensures ParseFd(digits) == if n <= 2147483647 then Some(n) else None
  {
    assert '0' <= digits[0] <= '9';
  }

  lemma {:induction false} PlusParses(digits: string, n: nat)
    requires digits != [] && Value(digits) == Some(n)
    ensures ParseFd("+" + digits) == if n <= 2147483647 then Some(n) else None
  {
    assert ("+" + digits)[1..] == digits && ("+" + digits)[0] == '+';
  }

  lemma {:induction false} MinusParses(digits: string, n: nat)
    requires digits != [] && Value(digits) == Some(n)
    ensures ParseFd("-" + digits) == if n <= 2147483648 then Some(0 - n) else None
  {
    assert ("-" + digits)[1..] == digits && ("-" + digits)[0] == '-';
  }

  lemma {:induction false} ValueDigits(s: string)
    ensures Value(s).Some? <==> AllDigits(s)
  {
    if s != [] {
      ValueDigits(s[..|s| - 1]);
      assert s == s[..|s| - 1] + [s[|s| - 1]];
    }
  }

  /** Nothing but a sign and at least one digit is read. */
  lemma {:induction false} ParsedIsDigits(s: string)
    requires ParseFd(s).Some?
    ensures var digits := if s[0] == '-' || s[0] == '+' then s[1..] else s;
      digits != [] && AllDigits(digits)
  {
    ValueDigits(if s[0] == '-' || s[0] == '+' then s[1..] else s);
  }

  // ---- Splitting and joining -----------------------------------------------

  function Join(pieces: seq<string>, separator: char): string {
    if pieces == [] then "" else if |pieces| == 1 then pieces[0]
    else pieces[0] + [separator] + Join(pieces[1..], separator)
  }

  /** The text before the first separator, and what follows it. */
  function SplitOnce(s: string, separator: char): Option<(string, string)> {
    if s == [] then None
    else if s[0] == separator then Some(([], s[1..]))
    else
      var rest := SplitOnce(s[1..], separator);
      if rest.Some? then Some(([s[0]] + rest.value.0, rest.value.1)) else None
  }

  function SplitAll(s: string, separator: char): (pieces: seq<string>)
    ensures pieces != []
    decreases |s|
  {
    var first := SplitOnce(s, separator);
    if first.None? then [s]
    else SplitShorter(s, separator); [first.value.0] + SplitAll(first.value.1, separator)
  }

  lemma {:induction false} SplitShorter(s: string, separator: char)
    ensures SplitOnce(s, separator).Some? ==> |SplitOnce(s, separator).value.1| < |s|
  {
    if s != [] && s[0] != separator {
      SplitShorter(s[1..], separator);
    }
  }

  lemma {:induction false} SplitOnceAt(a: string, separator: char, b: string)
    requires separator !in a
    ensures SplitOnce(a + [separator] + b, separator) == Some((a, b))
    ensures SplitOnce(a, separator) == None
  {
    var s := a + [separator] + b;
    if a == [] {
      assert s[1..] == b;
    } else {
      SplitOnceAt(a[1..], separator, b);
      assert s[1..] == a[1..] + [separator] + b;
      assert a == [a[0]] + a[1..];
    }
  }

  lemma {:induction false} SplitJoin(pieces: seq<string>, separator: char)
    requires pieces != [] && forall i :: 0 <= i < |pieces| ==> separator !in pieces[i]
    ensures SplitAll(Join(pieces, separator), separator) == pieces
  {
    if |pieces| == 1 {
      SplitOnceAt(pieces[0], separator, []);
    } else {
      SplitOnceAt(pieces[0], separator, Join(pieces[1..], separator));
      SplitJoin(pieces[1..], separator);
    }
  }

  // ---- Slots ---------------------------------------------------------------

  function SlotText(slot: ForkSlot): string {
    Decimal(slot.socket) + [':'] + Decimal(slot.stderr)
  }

  function SlotTexts(slots: seq<ForkSlot>): seq<string> {
    if slots == [] then [] else [SlotText(slots[0])] + SlotTexts(slots[1..])
  }

  function EnvValue(slots: seq<ForkSlot>): string {
    Join(SlotTexts(slots), ',')
  }

  /** The variable is set only when there are slots to pass. */
  function SpawnEnv(slots: seq<ForkSlot>): Option<string> {
    if slots == [] then None else Some(EnvValue(slots))
  }

  /** `isOpen`: the descriptor takes the close-on-exec flag. */
  function InheritedFd(text: string, isOpen: int -> bool): Result<nat> {
    match ParseFd(text)
    case None => Err("parsing EVIX_FORK_FDS")
    case Some(fd) => if fd >= 0 && isOpen(fd) then Ok(fd) else Err("marking fork slot close-on-exec")
  }

  function InheritedSlot(text: string, isOpen: int -> bool): Result<ForkSlot> {
    match SplitOnce(text, ':')
    case None => Err("parsing EVIX_FORK_FDS slot")
    case Some((socket, stderr)) =>
      match InheritedFd(socket, isOpen)
      case Err(e) => Err(e)
      case Ok(s) =>
        match InheritedFd(stderr, isOpen)
        case Err(e) => Err(e)
        case Ok(e) => Ok(ForkSlot(s, e))
  }

  function CollectSlots(texts: seq<string>, isOpen: int -> bool): Result<seq<ForkSlot>> {
    if texts == [] then Ok([])
    else
      match InheritedSlot(texts[0], isOpen)
      case Err(e) => Err(e)
      case Ok(slot) =>
        match CollectSlots(texts[1..], isOpen)
        case Err(e) => Err(e)
        case Ok(slots) => Ok([slot] + slots)
  }

  function InheritedSlots(variable: Option<string>, isOpen: int -> bool): Result<seq<ForkSlot>> {
    match variable
    case None => Ok([])
    case Some(text) => CollectSlots(SplitAll(text, ','), isOpen)
  }

  /** A slot is read exactly from two open descriptors with a colon between them. */
  lemma {:induction false} SlotAccepted(text: string, isOpen: int -> bool)
    ensures InheritedSlot(text, isOpen).Ok? <==>
              exists a, b :: ':' !in a && text == a + ":" + b
                             && IsOpenFd(a, isOpen) && IsOpenFd(b, isOpen)
    ensures InheritedSlot(text, isOpen).Ok? ==>
              exists a, b :: text == a + ":" + b
                             && ParseFd(a) == Some(InheritedSlot(text, isOpen).value.socket)
                             && ParseFd(b) == Some(InheritedSlot(text, isOpen).value.stderr)
  {
    SplitOnceJoins(text, ':');
    if SplitOnce(text, ':').Some? {
      var (a, b) := SplitOnce(text, ':').value;
      assert ':' !in a && text == a + ":" + b;
      FdAccepted(a, isOpen);
      FdAccepted(b, isOpen);
    }
    forall a, b | ':' !in a && text == a + ":" + b && IsOpenFd(a, isOpen) && IsOpenFd(b, isOpen)
      ensures InheritedSlot(text, isOpen).Ok?
    {
      SplitOnceAt(a, ':', b);
      FdAccepted(a, isOpen);
      FdAccepted(b, isOpen);
    }
  }

  lemma {:induction false} FdAccepted(text: string, isOpen: int -> bool)
    ensures InheritedFd(text, isOpen).Ok? <==> IsOpenFd(text, isOpen)
    ensures InheritedFd(text, isOpen).Ok? ==> Some(InheritedFd(text, isOpen).value) == ParseFd(text)
  {
  }

  predicate IsOpenFd(text: string, isOpen: int -> bool) {
    ParseFd(text).Some? && ParseFd(text).value >= 0 && isOpen(ParseFd(text).value)
  }

  lemma {:induction false} SplitOnceJoins(s: string, separator: char)
    ensures SplitOnce(s, separator).Some? <==> separator in s
    ensures SplitOnce(s, separator).Some? ==>
              var (a, b) := SplitOnce(s, separator).value;
              separator !in a && s == a + [separator] + b
  {
    if s != [] && s[0] != separator {
      SplitOnceJoins(s[1..], separator);
      assert s == [s[0]] + s[1..];
    }
  }

  /** One bad piece spoils the list; otherwise there is a slot for every piece, in order. */
  lemma {:induction false} SlotsAccepted(texts: seq<string>, isOpen: int -> bool)
    ensures CollectSlots(texts, isOpen).Ok? <==> forall i :: 0 <= i < |texts| ==> InheritedSlot(texts[i], isOpen).Ok?
    ensures CollectSlots(texts, isOpen).Ok? ==>
              var slots := CollectSlots(texts, isOpen).value;
              |slots| == |texts| && forall i :: 0 <= i < |texts| ==> InheritedSlot(texts[i], isOpen) == Ok(slots[i])
  {
    if texts != [] {
      SlotsAccepted(texts[1..], isOpen);
      assert texts == [texts[0]] + texts[1..];
    }
  }

  /** The text of two slots: descriptors joined by colons, slots by commas. */
  lemma {:induction false} TwoSlotsText(a: ForkSlot, b: ForkSlot)
    ensures SpawnEnv([]) == None
    ensures SpawnEnv([a, b]) == Some(
              Decimal(a.socket) + ":" + Decimal(a.stderr) + "," + Decimal(b.socket) + ":" + Decimal(b.stderr))
  {
    var first, second := SlotText(a), SlotText(b);
    assert [a, b][1..] == [b] && [b][1..] == [];
    assert SlotTexts([b]) == [second];
    assert SlotTexts([a, b]) == [first, second];
    assert [first, second][1..] == [second];
    assert Join([first, second], ',') == first + [','] + second;
    assert EnvValue([a, b]) == first + [','] + second;
    assert first + [','] + second == first + "," + Decimal(b.socket) + ":" + Decimal(b.stderr);
  }

  predicate Usable(slot: ForkSlot, isOpen: int -> bool) {
    slot.socket <= MAX_FD && slot.stderr <= MAX_FD && isOpen(slot.socket) && isOpen(slot.stderr)
  }

  lemma {:induction false} SlotRoundTrip(slot: ForkSlot, isOpen: int -> bool)
    requires Usable(slot, isOpen)
    ensures InheritedSlot(SlotText(slot), isOpen) == Ok(slot) && ',' !in SlotText(slot)
  {
    var socket, stderr := Decimal(slot.socket), Decimal(slot.stderr);
    DecimalParses(slot.socket);
    DecimalParses(slot.stderr);
    SplitOnceAt(socket, ':', stderr);
    assert InheritedFd(socket, isOpen) == Ok(slot.socket);
    assert InheritedFd(stderr, isOpen) == Ok(slot.stderr);
    assert SplitOnce(SlotText(slot), ':') == Some((socket, stderr));
  }

  lemma {:induction false} CollectRoundTrip(slots: seq<ForkSlot>, isOpen: int -> bool)
    requires forall i :: 0 <= i < |slots| ==> Usable(slots[i], isOpen)
    ensures CollectSlots(SlotTexts(slots), isOpen) == Ok(slots)
    ensures |SlotTexts(slots)| == |slots| && forall i :: 0 <= i < |slots| ==> ',' !in SlotTexts(slots)[i]
  {
    if slots != [] {
      SlotRoundTrip(slots[0], isOpen);
      CollectRoundTrip(slots[1..], isOpen);
      assert slots == [slots[0]] + slots[1..];
    }
  }

  /** The worker gets back exactly the slots its master prepared, in order. */
  lemma {:induction false} SlotsRoundTrip(slots: seq<ForkSlot>, isOpen: int -> bool)
    requires forall i :: 0 <= i < |slots| ==> Usable(slots[i], isOpen)
    ensures InheritedSlots(SpawnEnv(slots), isOpen) == Ok(slots)
  {
    CollectRoundTrip(slots, isOpen);
    if slots != [] {
      SplitJoin(SlotTexts(slots), ',');
    }
  }

  /** Without the master's guard an empty list would not survive the trip: of all
      lists of usable slots, it alone is not read back from its own text. */
  lemma {:induction false} EnvValueReadable(slots: seq<ForkSlot>, isOpen: int -> bool)
    requires forall i :: 0 <= i < |slots| ==> Usable(slots[i], isOpen)
    ensures InheritedSlots(Some(EnvValue(slots)), isOpen) == Ok(slots) <==> slots != []
  {
    if slots == [] {
      assert SplitOnce("", ',') == None;
      assert SplitAll("", ',') == [""];
      assert CollectSlots([""], isOpen).Err?;
    } else {
      SlotsRoundTrip(slots, isOpen);
    }
  }
}
