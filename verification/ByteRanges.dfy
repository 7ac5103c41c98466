/**
  The `Range` header of a media request: parsing a single byte range, the range it selects by section 14.1.2
  of RFC 9110, and the response length. Numbers are 64-bit and unsigned.
 */
module ByteRanges {
  import opened Wrappers
  import opened Texts

  datatype Requested = Full | Partial(start: nat, end: nat)

  datatype Answer = Serve(range: Requested) | NotSatisfiable

  function ParseU64(s: string): Option<nat> {
    if s == [] || !AllDigits(s) || Value(s) > U64_MAX then None else Some(Value(s))
  }

  const PREFIX: string := "bytes="

  /** Where the first dash is. */
  function DashAt(s: string): Option<nat> {
    if s == [] then None
    else if s[0] == '-' then Some(0)
    else
      match DashAt(s[1..])
      case None => None
      case Some(i) => Some(i + 1)
  }

  lemma {:induction false} DashAtIsFirst(s: string)
    ensures DashAt(s).Some? <==> '-' in s
    ensures DashAt(s).Some? ==>
              && DashAt(s).value < |s| && s[DashAt(s).value] == '-'
              && forall i :: 0 <= i < DashAt(s).value ==> s[i] != '-'
  {
    if s != [] && s[0] != '-' {
      DashAtIsFirst(s[1..]);
    }
  }

  /** The numbers on either side of the dash. */
  function RangeFor(first: string, last: string, size: nat): Answer
    requires 0 < size
  {
    if first != [] && last != [] then
      var start, end := ParseU64(first), ParseU64(last);
      if start.None? || end.None? || start.value > end.value || start.value >= size then NotSatisfiable
      else Serve(Partial(start.value, Min(end.value, size - 1)))
    else if first != [] then
      var start := ParseU64(first);
      if start.None? || start.value >= size then NotSatisfiable else Serve(Partial(start.value, size - 1))
    else if last != [] then
      var suffix := ParseU64(last);
      if suffix.None? || suffix.value == 0 then NotSatisfiable
      else Serve(Partial(Max(0, size - suffix.value), size - 1))
    else NotSatisfiable
  }

  /** `requested_range`; a header value that is not text is `None`. */
  function RequestedRange(headers: seq<Option<string>>, size: nat): Answer {
    if headers == [] then Serve(Full)
    else if |headers| > 1 || headers[0].None? then NotSatisfiable
    else
      var value := headers[0].value;
      if !(PREFIX <= value) then NotSatisfiable
      else
        var spec := value[|PREFIX|..];
        if spec == [] || ',' in spec || size == 0 then NotSatisfiable
        else
          var dash := DashAt(spec);
          if dash.None? || dash.value >= |spec| then NotSatisfiable
          else RangeFor(spec[..dash.value], spec[dash.value + 1..], size)
  }

  // ----- What the standard assigns

  /** A range specifier: first and last position, an open end, or a suffix length. */
  datatype Spec = Closed(first: nat, last: nat) | From(first: nat) | Suffix(length: nat)

  /** Whether a specifier selects a position, by section 14.1.2 of RFC 9110. */
  predicate Selects(spec: Spec, size: nat, p: nat) {
    match spec
    case Closed(first, last) => first <= p <= last
    case From(first) => first <= p
    case Suffix(length) => size <= p + length
  }

  function Selected(spec: Spec, size: nat): set<nat> {
    set p: nat | p < size && Selects(spec, size, p)
  }

  /** The syntax of a specifier: digits, a dash, digits, not both sides empty, and first at most last. */
  ghost predicate Writes(text: string, spec: Spec) {
    match spec
    case Closed(first, last) =>
      first <= last && exists a, b :: IsNumber(a, first) && IsNumber(b, last) && text == a + "-" + b
    case From(first) => exists a :: IsNumber(a, first) && text == a + "-"
    case Suffix(length) => exists b :: IsNumber(b, length) && text == "-" + b
  }

  predicate Fits(spec: Spec) {
    match spec
    case Closed(first, last) => first <= U64_MAX && last <= U64_MAX
    case From(first) => first <= U64_MAX
    case Suffix(length) => length <= U64_MAX
  }

  /** The positions a response carries. */
  predicate Carries(range: Requested, p: nat) {
    range.Full? || range.start <= p <= range.end
  }

  function Positions(range: Requested, size: nat): set<nat> {
    set p: nat | p < size && Carries(range, p)
  }

  lemma DashSplits(a: string, b: string)
    requires AllDigits(a)
    ensures DashAt(a + "-" + b) == Some(|a|)
    ensures (a + "-" + b)[..|a|] == a && (a + "-" + b)[|a| + 1..] == b
  {
    DashAtIsFirst(a + "-" + b);
    assert (a + "-" + b)[|a|] == '-';
  }

  function Header(text: string): seq<Option<string>> {
    [Some(PREFIX + text)]
  }

  lemma HeaderReads(a: string, b: string, size: nat)
    requires AllDigits(a) && AllDigits(b) && 0 < size
    ensures RequestedRange(Header(a + "-" + b), size) == RangeFor(a, b, size)
  {
    var text := a + "-" + b;
    DashSplits(a, b);
    var value := PREFIX + text;
    assert PREFIX <= value && value[|PREFIX|..] == text;
    assert ',' !in text;
  }

  /** The text is this specifier, its numbers fit in 64 bits, and it selects something. */
  ghost predicate Satisfiable(text: string, spec: Spec, size: nat) {
    Writes(text, spec) && Fits(spec) && Selected(spec, size) != {}
  }

  /** The answer serves exactly the bytes the specifier selects. */
  ghost predicate ServesExactly(answer: Answer, spec: Spec, size: nat) {
    && answer.Serve? && answer.range.Partial?
    && answer.range.start <= answer.range.end < size
    && (forall p: nat :: p < size ==> (Carries(answer.range, p) <==> Selects(spec, size, p)))
  }

  lemma RangeForServes(a: string, b: string, spec: Spec, size: nat)
    requires Fits(spec) && Selected(spec, size) != {}
    requires match spec
             case Closed(first, last) => first <= last && IsNumber(a, first) && IsNumber(b, last)
             case From(first) => IsNumber(a, first) && b == ""
             case Suffix(length) => a == "" && IsNumber(b, length)
    ensures 0 < size && ServesExactly(RangeFor(a, b, size), spec, size)
  {
    var p :| p in Selected(spec, size);
  }

  /** A specifier that fits in 64 bits and selects something is served, with exactly the bytes it selects. */
  lemma SpecIsServed(text: string, spec: Spec, size: nat)
    requires Satisfiable(text, spec, size)
    ensures ServesExactly(RequestedRange(Header(text), size), spec, size)
  {
    var a, b := "", "";
    match spec {
      case Closed(first, last) =>
        a, b :| IsNumber(a, first) && IsNumber(b, last) && text == a + "-" + b;
      case From(first) =>
        a :| IsNumber(a, first) && text == a + "-";
      case Suffix(length) =>
        b :| IsNumber(b, length) && text == "-" + b;
    }
    assert text == a + "-" + b;
    RangeForServes(a, b, spec, size);
    HeaderReads(a, b, size);
  }

  /** The other way: only such a specifier is served. */
  lemma ServedIsSpec(text: string, size: nat) returns (spec: Spec)
    requires RequestedRange(Header(text), size).Serve?
    ensures Satisfiable(text, spec, size)
  {
    assert (PREFIX + text)[|PREFIX|..] == text;
    DashAtIsFirst(text);
    var dash := DashAt(text).value;
    var first, last := text[..dash], text[dash + 1..];
    assert text == first + "-" + last;
    if first != [] && last != [] {
      spec := Closed(Value(first), Value(last));
      assert IsNumber(first, Value(first)) && IsNumber(last, Value(last));
      assert Value(first) in Selected(spec, size);
    } else if first != [] {
      spec := From(Value(first));
      assert IsNumber(first, Value(first)) && text == first + "-";
      assert Value(first) in Selected(spec, size);
    } else {
      spec := Suffix(Value(last));
      assert IsNumber(last, Value(last)) && text == "-" + last;
      assert size - 1 in Selected(spec, size);
    }
  }

  /** A range header is served exactly when its text is one satisfiable specifier whose numbers fit in 64 bits. */
  lemma ServedIff(text: string, size: nat)
    ensures RequestedRange(Header(text), size).Serve? <==>
            exists spec :: Satisfiable(text, spec, size)
  {
    if RequestedRange(Header(text), size).Serve? {
      var spec := ServedIsSpec(text, size);
    }
    if exists spec :: Satisfiable(text, spec, size) {
      var spec :| Satisfiable(text, spec, size);
      SpecIsServed(text, spec, size);
    }
  }

  /** Exactly what is served, for any headers: the whole object without a range header, else one such specifier. */
  lemma HeadersServedIff(headers: seq<Option<string>>, size: nat)
    ensures RequestedRange(headers, size) == Serve(Full) <==> headers == []
    ensures RequestedRange(headers, size).Serve? && headers != [] <==>
            exists text, spec :: headers == Header(text) && Satisfiable(text, spec, size)
  {
    if exists text, spec :: headers == Header(text) && Satisfiable(text, spec, size) {
      var text, spec :| headers == Header(text) && Satisfiable(text, spec, size);
      SpecIsServed(text, spec, size);
    }
    if RequestedRange(headers, size).Serve? && headers != [] {
      var text := headers[0].value[|PREFIX|..];
      assert headers[0].value == PREFIX + text;
      assert headers == Header(text);
      var spec := ServedIsSpec(text, size);
    }
  }

  // ----- Printing and the response length

  /** Printing any valid closed range and parsing it returns the same range. */
  lemma PrintedRangeParses(start: nat, end: nat, size: nat)
    requires start <= end < size <= U64_MAX
    ensures RequestedRange(Header(Decimal(start) + "-" + Decimal(end)), size) == Serve(Partial(start, end))
  {
    DecimalIsNumber(start);
    DecimalIsNumber(end);
    HeaderReads(Decimal(start), Decimal(end), size);
  }

  /** The status-independent part of `media_response`: the first position, the last one, and the length. */
  function ResponseLength(range: Requested, size: nat): nat
    requires range.Partial? ==> range.start <= range.end
  {
    match range
    case Full => if size == 0 then 0 else size - 1 - 0 + 1
    case Partial(start, end) => end - start + 1
  }

  predicate InSpan(start: nat, count: nat, p: nat) {
    start <= p < start + count
  }

  lemma {:induction false} SpanSize(start: nat, count: nat, size: nat)
    requires start + count <= size
    ensures |set p: nat | p < size && InSpan(start, count, p)| == count
  {
    var all := set p: nat | p < size && InSpan(start, count, p);
    if count == 0 {
      assert all == {};
    } else {
      var fewer: nat := count - 1;
      SpanSize(start, fewer, size);
      assert all == (set p: nat | p < size && InSpan(start, fewer, p)) + {start + fewer};
    }
  }

  /** The response length is the number of selected bytes, at most the size. */
  lemma LengthIsCount(headers: seq<Option<string>>, size: nat)
    requires RequestedRange(headers, size).Serve?
    ensures var range := RequestedRange(headers, size).range;
            && (range.Partial? ==> range.start <= range.end < size)
            && ResponseLength(range, size) == |Positions(range, size)| <= size
  {
    var range := RequestedRange(headers, size).range;
    var start, count := if range.Full? then 0 else range.start, ResponseLength(range, size);
    SpanSize(start, count, size);
    assert Positions(range, size) == set p: nat | p < size && InSpan(start, count, p);
  }
}
