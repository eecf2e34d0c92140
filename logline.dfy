/** Reading one raw log line: the `HH:MM:SS:` prefix, the wall-clock time
    `datetime.strptime` gives it, and the product side channel carried by
    `SetFileName File:` messages. */
module LogLine {
  import opened Options
  import opened Text

  const ProductMarker := "SetFileName File:"
  const DefaultProductId := "99999999"
  const DaySeconds := 86400

  /** What `\d{2}:\d{2}:\d{2}` matches. */
  predicate IsStamp(t: string) {
    |t| == 8 && IsDigit(t[0]) && IsDigit(t[1]) && t[2] == ':'
    && IsDigit(t[3]) && IsDigit(t[4]) && t[5] == ':'
    && IsDigit(t[6]) && IsDigit(t[7])
  }

  /** A log file: its name without the extension, and its lines. */
  datatype LogFile = LogFile(stem: string, lines: seq<string>)

  /** The files of a batch that hold at least one line, in order. */
  function NonEmptyFiles(files: seq<LogFile>): (r: seq<LogFile>)
    ensures |r| <= |files|
    ensures forall f :: f in r ==> f in files && f.lines != []
    ensures forall f :: f in files && f.lines != [] ==> f in r
  {
    if files == [] then []
    else (if files[0].lines == [] then [] else [files[0]]) + NonEmptyFiles(files[1..])
  }

  /** The two groups of a matched line: the time stamp and the message. */
  datatype Parsed = Parsed(stamp: string, message: string)

  /** What `.*` matches at the start of `s`: everything up to the first line break. */
  function UpToNewline(s: string): (r: string)
    ensures |r| <= |s| && r == s[..|r|]
    ensures '\n' !in r
    ensures r == s || s[|r|] == '\n'
  {
    if s == [] || s[0] == '\n' then [] else [s[0]] + UpToNewline(s[1..])
  }

  /** `re.match(r"(\d{2}:\d{2}:\d{2}):(.*)", raw.strip())`. A blank line
      fails the match too, which is how the scripts skip it. */
  function ParseLine(raw: string): (r: Option<Parsed>)
    ensures r.Some? ==> IsStamp(r.value.stamp) && '\n' !in r.value.message
  {
    var line := Strip(raw);
    if |line| >= 9 && IsStamp(line[..8]) && line[8] == ':' then
      var m := UpToNewline(line[9..]);
      Some(Parsed(line[..8], m))
    else
      None
  }

  /** A line written as stamp, colon and message reads back as those two
      parts, whatever whitespace surrounds it. */
  lemma ParseLineRoundTrip(stamp: string, message: string, before: string, after: string)
    requires IsStamp(stamp) && '\n' !in message
    requires message == [] || message[|message| - 1] !in Whitespace
    requires forall i :: 0 <= i < |before| ==> before[i] in Whitespace
    requires forall i :: 0 <= i < |after| ==> after[i] in Whitespace
    ensures ParseLine(before + stamp + ":" + message + after) == Some(Parsed(stamp, message))
  {
    var line := stamp + ":" + message;
    assert before + stamp + ":" + message + after == before + line + after;
    assert line[|line| - 1] !in Whitespace by {
      if message == [] { assert line[|line| - 1] == ':'; } else { assert line[|line| - 1] == message[|message| - 1]; }
    }
    assert line[0] == stamp[0];
    StripSurrounded(before, line, after);
    assert line[..8] == stamp && line[8] == ':' && line[9..] == message;
    assert UpToNewline(message) == message;
  }

  /** Stripping removes exactly the whitespace around a line that neither
      starts nor ends with whitespace. */
  lemma StripSurrounded(before: string, line: string, after: string)
    requires |line| > 0 && line[0] !in Whitespace && line[|line| - 1] !in Whitespace
    requires forall i :: 0 <= i < |before| ==> before[i] in Whitespace
    requires forall i :: 0 <= i < |after| ==> after[i] in Whitespace
    ensures Strip(before + line + after) == line
  {
    var raw := before + line + after;
    var lo, hi := StripSetIsSlice(raw, Whitespace);
    assert raw[|before|] == line[0];
    assert raw[|before| + |line| - 1] == line[|line| - 1];
    assert lo == |before|;
    assert hi == |before| + |line|;
    assert raw[lo..hi] == line;
  }

  function TwoDigits(a: char, b: char): (v: nat)
    requires IsDigit(a) && IsDigit(b)
    ensures v < 100
  {
    10 * DigitValue(a) + DigitValue(b)
  }

  /** `datetime.strptime(t, "%H:%M:%S")` as seconds after midnight. It
      raises ValueError (here: None) for an hour above 23 or a minute
      above 59 (the format does not match) and for a second of 60 or 61
      (the format matches, the datetime constructor refuses it). */
  function ClockSeconds(t: string): (r: Option<nat>)
    requires IsStamp(t)
    ensures r.Some? ==> r.value < DaySeconds
  {
    var h, m, s := TwoDigits(t[0], t[1]), TwoDigits(t[3], t[4]), TwoDigits(t[6], t[7]);
    if h <= 23 && m <= 59 && s <= 59 then Some(h * 3600 + m * 60 + s) else None
  }

  function Pad2(n: nat): (t: string)
    requires n < 100
    ensures |t| == 2 && IsDigit(t[0]) && IsDigit(t[1]) && TwoDigits(t[0], t[1]) == n
  {
    [DigitChar(n / 10), DigitChar(n % 10)]
  }

  /** `strftime("%H:%M:%S")` of a time of day: the inverse of ClockSeconds. */
  function FormatClock(x: nat): (t: string)
    requires x < DaySeconds
    ensures IsStamp(t)
  {
    Pad2(x / 3600) + ":" + Pad2(x % 3600 / 60) + ":" + Pad2(x % 60)
  }

  /** Every time of day is written by exactly one valid stamp. */
  lemma {:induction false} ClockRoundTrip(x: nat)
    requires x < DaySeconds
    ensures ClockSeconds(FormatClock(x)) == Some(x)
  {
    var h, m, s := x / 3600, x % 3600 / 60, x % 60;
    assert x == h * 3600 + m * 60 + s;
    ClockOfPads(h, m, s);
  }

  /** A stamp written from an hour, a minute and a second in range reads
      back as their seconds. */
  lemma ClockOfPads(h: nat, m: nat, s: nat)
    requires h < 24 && m < 60 && s < 60
    ensures IsStamp(Pad2(h) + ":" + Pad2(m) + ":" + Pad2(s))
    ensures ClockSeconds(Pad2(h) + ":" + Pad2(m) + ":" + Pad2(s)) == Some(h * 3600 + m * 60 + s)
  {
    var a, b, c := Pad2(h), Pad2(m), Pad2(s);
    var t := a + ":" + b + ":" + c;
    assert t[0] == a[0] && t[1] == a[1] && t[3] == b[0] && t[4] == b[1] && t[6] == c[0] && t[7] == c[1];
  }

  lemma {:induction false} ClockReadBack(t: string)
    requires IsStamp(t) && ClockSeconds(t).Some?
    ensures FormatClock(ClockSeconds(t).value) == t
  {
    var h, m, s := TwoDigits(t[0], t[1]), TwoDigits(t[3], t[4]), TwoDigits(t[6], t[7]);
    var x := h * 3600 + m * 60 + s;
    DivModUnique(x, 3600, h, m * 60 + s);
    DivModUnique(m * 60 + s, 60, m, s);
    DivModUnique(x, 60, h * 60 + m, s);
    Pad2ReadBack(t[0], t[1]);
    Pad2ReadBack(t[3], t[4]);
    Pad2ReadBack(t[6], t[7]);
    assert t == [t[0], t[1]] + ":" + [t[3], t[4]] + ":" + [t[6], t[7]];
  }

  /** Two digits read as a number and written back with padding. */
  lemma Pad2ReadBack(a: char, b: char)
    requires IsDigit(a) && IsDigit(b)
    ensures Pad2(TwoDigits(a, b)) == [a, b]
  {
    var n := TwoDigits(a, b);
    assert n / 10 == DigitValue(a) && n % 10 == DigitValue(b);
  }

  lemma DivModUnique(x: int, d: int, q: int, r: int)
    requires d == 60 || d == 3600
    requires 0 <= r < d && x == q * d + r
    ensures x / d == q && x % d == r
  {
    if d == 60 {
      assert x == q * 60 + r;
    } else {
      assert x == q * 3600 + r;
    }
  }

  predicate IsSeparator(c: char) {
    c == '/' || c == '\\'
  }

  /** `[/\\](\d{8})[_-]` matches at position `i`. */
  predicate IdAt(path: string, i: int) {
    0 <= i && i + 10 <= |path| && IsSeparator(path[i]) && AllDigits(path[i + 1..i + 9])
    && (path[i + 9] == '_' || path[i + 9] == '-')
  }

  /** A product ID: eight ASCII digits. */
  predicate IsProductId(id: string) {
    |id| == 8 && AllDigits(id)
  }

  /** The group of `re.search(r"[/\\](\d{8})[_-]", path)`: the eight digits
      of the leftmost match. */
  function ProductId(path: string): (r: Option<string>)
    ensures r.Some? <==> exists i :: 0 <= i < |path| && IdAt(path, i)
    ensures r.Some? ==> IsProductId(r.value)
    ensures r.Some? ==> exists i :: 0 <= i < |path| && IdAt(path, i) && r.value == path[i + 1..i + 9]
                                     && forall j :: 0 <= j < i ==> !IdAt(path, j)
  {
    match FirstIdFrom(path, 0)
    case None => None
    case Some(i) => Some(path[i + 1..i + 9])
  }

  function FirstIdFrom(path: string, k: nat): (r: Option<nat>)
    requires forall j :: 0 <= j < k ==> !IdAt(path, j)
    ensures r.None? ==> forall j :: 0 <= j < |path| ==> !IdAt(path, j)
    ensures r.Some? ==> r.value < |path| && IdAt(path, r.value)
    ensures r.Some? ==> forall j :: 0 <= j < r.value ==> !IdAt(path, j)
    decreases |path| - k
  {
    if k >= |path| then None
    else if IdAt(path, k) then Some(k)
    else FirstIdFrom(path, k + 1)
  }

  /** The product side channel: the product being made and the last one
      seen, with their IDs. */
  datatype Product = Product(current: string, currentId: string, last: string, lastId: string)

  /** `message.split("SetFileName File:")[-1].strip()`. */
  function ProductName(message: string): (name: string)
    ensures Contains(message, ProductMarker) ==> !Contains(name, ProductMarker)
  {
    var piece := LastPiece(message, ProductMarker);
    assert !Contains(Strip(piece), ProductMarker) by {
      var lo, hi := StripSetIsSlice(piece, Whitespace);
      if Contains(Strip(piece), ProductMarker) {
        var i :| 0 <= i <= |Strip(piece)| - |ProductMarker| && OccursAt(Strip(piece), ProductMarker, i);
        OccursInSlice(piece, ProductMarker, lo, hi, i);
      }
    }
    Strip(piece)
  }

  /** A `SetFileName File:` message sets the current and last product. A
      product ID in its path becomes the current and the last ID; without
      one the current ID falls back to 99999999 and the last ID is kept. */
  function UpdateProduct(p: Product, message: string): (q: Product)
    ensures !Contains(message, ProductMarker) ==> q == p
    ensures Contains(message, ProductMarker) ==> q.current == q.last == ProductName(message)
    ensures Contains(message, ProductMarker) && ProductId(q.current).None? ==>
              q.currentId == DefaultProductId && q.lastId == p.lastId
    ensures Contains(message, ProductMarker) && ProductId(q.current).Some? ==>
              q.currentId == q.lastId == ProductId(q.current).value
    ensures IsProductId(p.currentId) && IsProductId(p.lastId) ==> IsProductId(q.currentId) && IsProductId(q.lastId)
  {
    if Contains(message, ProductMarker) then
      var name := ProductName(message);
      match ProductId(name)
      case Some(id) => Product(name, id, name, id)
      case None => Product(name, DefaultProductId, name, p.lastId)
    else
      p
  }
}
