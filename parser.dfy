/**
 * The decklist lexer: a deserializer whose only state is the text still to be
 * read. Every primitive trims characters off the front of that text.
 *
 * Each primitive is a method of `CardDeserializer`, proved against a pure step
 * function of the input it started from (`ParseStrStep`, `ParseU16Step`, ...);
 * the properties of the lexer are stated on those functions.
 */
module Parser {
  import opened RustStd

  datatype Error = Message(msg: string) | Eof | Syntax | TrailingCharacters

  /** What `deserialize_any` hands the visitor: a number (`visit_u16`) or a line (`visit_str`). */
  datatype Value = U16(n: u16) | Str(s: string)

  /** What a primitive returned, with the input it left behind. */
  datatype Step<T> = Step(result: Result<T, Error>, rest: string)

  predicate IsDigit(c: char) { '0' <= c <= '9' }

  predicate IsAsciiLetter(c: char) { 'A' <= c <= 'Z' || 'a' <= c <= 'z' }

  predicate AllDigits(s: string) { forall i :: 0 <= i < |s| ==> IsDigit(s[i]) }

  /** `str::find` for one character: the index of its first occurrence. */
  function Find(s: string, c: char): (r: Option<nat>)
    ensures r.Some? <==> c in s
    ensures r.Some? ==> r.value < |s| && s[r.value] == c && c !in s[..r.value]
  {
    if s == [] then None
    else if s[0] == c then Some(0)
    else
      match Find(s[1..], c)
      case None => None
      case Some(i) =>
        assert s[..i + 1] == [s[0]] + s[1..][..i];
        Some(i + 1)
  }

  /** The length of the maximal run of ASCII digits at the front of `s`. */
  function DigitRun(s: string): (n: nat)
    ensures n <= |s|
    ensures AllDigits(s[..n])
    ensures n < |s| ==> !IsDigit(s[n])
  {
    if s != [] && IsDigit(s[0]) then
      var n := 1 + DigitRun(s[1..]);
      assert s[..n] == [s[0]] + s[1..][..n - 1];
      n
    else 0
  }

  /** The decimal value of a string of ASCII digits, most significant digit first. */
  function DecimalValue(ds: string): nat
    requires AllDigits(ds)
  {
    if ds == [] then 0
    else
      assert AllDigits(ds[..|ds| - 1]);
      10 * DecimalValue(ds[..|ds| - 1]) + (ds[|ds| - 1] as int - '0' as int)
  }

  /** The value of the maximal leading run of digits of `s`; 0 when there is none. */
  function LeadingNumber(s: string): nat
  {
    DecimalValue(s[..DigitRun(s)])
  }

  /** The leading number of `s` fits in a `u16`: what `parse_u16` needs not to overflow. */
  predicate FitsU16(s: string)
  {
    LeadingNumber(s) < 0x1_0000
  }

  /** `s` with up to `n` characters dropped from its front. */
  function DropUpTo(s: string, n: nat): (r: string)
    ensures |r| == if n <= |s| then |s| - n else 0
    ensures s == s[..|s| - |r|] + r
  {
    if n <= |s| then s[n..] else []
  }

  // ---------------------------------------------------------------------------
  // The primitives, as functions of the input they start from

  /** `peek_char`: the first character, or `Eof`. */
  function PeekStep(input: string): (r: Result<char, Error>)
    ensures r.Ok? <==> input != []
    ensures r.Ok? ==> r.value == input[0]
    ensures r.Err? ==> r.error == Eof
  {
    if input == [] then Err(Eof) else Ok(input[0])
  }

  /**
   * `parse_str`: the text before the first newline, consuming the newline; a
   * last line without a newline is returned but NOT consumed; `Eof` on empty input.
   */
  function ParseStrStep(input: string): (st: Step<string>)
    ensures '\n' in input ==>
      && st.result.Ok?
      && '\n' !in st.result.value
      && input == st.result.value + "\n" + st.rest
    ensures '\n' !in input && input != [] ==> st == Step(Ok(input), input)
    ensures input == [] ==> st == Step(Err(Eof), input)
  {
    match Find(input, '\n')
    case Some(len) =>
      assert input == input[..len] + "\n" + input[len + 1..];
      Step(Ok(input[..len]), input[len + 1..])
    case None =>
      if input != [] then Step(Ok(input), input) else Step(Err(Eof), input)
  }

  /**
   * `parse_u16`: the value of the leading digit run; the digits and then up to
   * two more characters, whatever they are, are consumed.
   */
  function ParseU16Step(input: string): (st: Step<u16>)
    requires FitsU16(input)
    ensures st.result.Ok? && st.result.value as int == LeadingNumber(input)
    ensures |st.rest| <= |input| && input == input[..|input| - |st.rest|] + st.rest
    ensures |input| - |st.rest| == Min(DigitRun(input) + 2, |input|)
  {
    Step(Ok(LeadingNumber(input) as u16), DropUpTo(input[DigitRun(input)..], 2))
  }

  /** `deserialize_any`: dispatch on the first character. */
  function DeserializeAnyStep(input: string): (st: Step<Value>)
    requires FitsU16(input)
    ensures st.result == Err(Eof) <==> input == []
    ensures st.result.Ok? && st.result.value.U16? <==> input != [] && IsDigit(input[0])
    ensures st.result.Ok? && st.result.value.Str? <==> input != [] && IsAsciiLetter(input[0])
    ensures st.result == Err(Syntax) <==>
      input != [] && !IsDigit(input[0]) && !IsAsciiLetter(input[0])
    ensures st.result.Err? ==> st.rest == input
    ensures |st.rest| <= |input|
  {
    if input == [] then Step(Err(Eof), input)
    else if IsDigit(input[0]) then
      var st := ParseU16Step(input);
      Step(Ok(U16(st.result.value)), st.rest)
    else if IsAsciiLetter(input[0]) then
      var st := ParseStrStep(input);
      Step(Ok(Str(st.result.value)), st.rest)
    else Step(Err(Syntax), input)
  }

  /** `next_element_seed` with a seed that deserializes through `deserialize_any`. */
  function NextElementStep(input: string): (st: Step<Option<Value>>)
    requires FitsU16(input)
    ensures st.result == Ok(None) <==> input == []
  {
    if input != [] then
      var st := DeserializeAnyStep(input);
      match st.result
      case Ok(v) => Step(Ok(Some(v)), st.rest)
      case Err(e) => Step(Err(e), st.rest)
    else Step(Ok(None), input)
  }

  /**
   * `from_str` with a visitor that accepts both a number and a line, so that
   * what `deserialize_any` hands it is the value: success only when the whole
   * input has been consumed. serde's type check on that value is not modelled.
   */
  function FromStrAny(s: string): (r: Result<Value, Error>)
    requires FitsU16(s)
    ensures r.Ok? <==> DeserializeAnyStep(s).result.Ok? && DeserializeAnyStep(s).rest == []
    ensures r == Err(TrailingCharacters) <==>
      DeserializeAnyStep(s).result.Ok? && DeserializeAnyStep(s).rest != []
    ensures r.Ok? ==> r.value == DeserializeAnyStep(s).result.value
  {
    var st := DeserializeAnyStep(s);
    match st.result
    case Err(e) => Err(e)
    case Ok(v) => if st.rest == [] then Ok(v) else Err(TrailingCharacters)
  }

  // ---------------------------------------------------------------------------
  // The deserializer

  class CardDeserializer {
    /** The text not yet read; characters are trimmed off its front. */
    var input: string

    constructor FromStr(input: string)
      ensures this.input == input
    {
      this.input := input;
    }

    /** Looks at the first character without consuming it. */
    method PeekChar() returns (r: Result<char, Error>)
      ensures r == PeekStep(input)
    {
      if input == [] {
        r := Err(Eof);
      } else {
        r := Ok(input[0]);
      }
    }

    /** Consumes the first character; does nothing on empty input. */
    method EatChar()
      modifies this
      ensures input == DropUpTo(old(input), 1)
    {
      var c := PeekChar();
      match c
      case Ok(_) => input := input[1..];
      case Err(_) =>
    }

    method ParseStr() returns (r: Result<string, Error>)
      modifies this
      ensures Step(r, input) == ParseStrStep(old(input))
    {
      match Find(input, '\n')
      case Some(len) =>
        r := Ok(input[..len]);
        input := input[len + 1..];
      case None =>
        if input != [] {
          r := Ok(input);
        } else {
          r := Err(Eof);
        }
    }

    method ParseU16() returns (r: Result<u16, Error>)
      requires FitsU16(input)
      modifies this
      ensures Step(r, input) == ParseU16Step(old(input))
    {
      ghost var digits := old(input)[..DigitRun(old(input))];
      ghost var k := 0;
      var acc: u16 := 0;
      while true
        invariant k <= |digits|
        invariant input == old(input)[k..]
        invariant acc as int == DecimalValue(digits[..k])
        decreases |input|
      {
        if input != [] && IsDigit(input[0]) {
          var ch := input[0];
          assert k < |digits|;
          assert digits[..k + 1][..k] == digits[..k];
          DecimalValuePrefix(digits, k + 1);
          input := input[1..];
          acc := acc * 10 + (ch as int - '0' as int) as u16;
          k := k + 1;
        } else {
          assert k == |digits|;
          assert digits[..k] == digits;
          EatChar();
          EatChar();
          return Ok(acc);
        }
      }
    }

    /** `deserialize_any`, with the visitor's argument as its result. */
    method DeserializeAny() returns (r: Result<Value, Error>)
      requires FitsU16(input)
      modifies this
      ensures Step(r, input) == DeserializeAnyStep(old(input))
    {
      var c := PeekChar();
      if c.Err? {
        return Err(c.error);
      }
      if IsDigit(c.value) {
        var n := ParseU16();
        r := Ok(U16(n.value));
      } else if IsAsciiLetter(c.value) {
        var s := ParseStr();
        r := Ok(Str(s.value));
      } else {
        r := Err(Syntax);
      }
    }

    /** `next_element_seed`: no element once the input is empty. */
    method NextElement() returns (r: Result<Option<Value>, Error>)
      requires FitsU16(input)
      modifies this
      ensures Step(r, input) == NextElementStep(old(input))
    {
      if input != [] {
        var v := DeserializeAny();
        match v
        case Ok(x) => r := Ok(Some(x));
        case Err(e) => r := Err(e);
      } else {
        r := Ok(None);
      }
    }
  }

  /** Top-level `from_str`: deserialize, then refuse leftover input. */
  method FromStr(s: string) returns (r: Result<Value, Error>)
    requires FitsU16(s)
    ensures r == FromStrAny(s)
  {
    var deserializer := new CardDeserializer.FromStr(s);
    var t := deserializer.DeserializeAny();
    if t.Err? {
      return Err(t.error);
    }
    if deserializer.input == [] {
      r := Ok(t.value);
    } else {
      r := Err(TrailingCharacters);
    }
  }

  // ---------------------------------------------------------------------------
  // Properties

  lemma {:induction false} DecimalValuePrefix(ds: string, k: nat)
    requires AllDigits(ds)
    requires k <= |ds|
    ensures AllDigits(ds[..k])
    ensures DecimalValue(ds[..k]) <= DecimalValue(ds)
  {
    assert AllDigits(ds[..k]);
    if k < |ds| {
      var init := ds[..|ds| - 1];
      DecimalValuePrefix(init, k);
      assert init[..k] == ds[..k];
    } else {
      assert ds[..k] == ds;
    }
  }

  /** The decimal rendering of `n`, most significant digit first, without leading zeros. */
  function Decimal(n: nat): (ds: string)
    ensures 1 <= |ds| && AllDigits(ds)
  {
    var last := [('0' as int + n % 10) as char];
    if n < 10 then last else Decimal(n / 10) + last
  }

  lemma {:induction false} DecimalRoundTrip(n: nat)
    ensures DecimalValue(Decimal(n)) == n
  {
    if n >= 10 {
      DecimalRoundTrip(n / 10);
      var ds := Decimal(n);
      assert ds[..|ds| - 1] == Decimal(n / 10);
    }
  }

  /** A run of digits followed by a non-digit is exactly the leading digit run. */
  lemma DigitRunOfDigits(ds: string, tail: string)
    requires AllDigits(ds)
    requires tail == [] || !IsDigit(tail[0])
    ensures DigitRun(ds + tail) == |ds|
    ensures (ds + tail)[..|ds|] == ds && (ds + tail)[|ds|..] == tail
  {
    var s := ds + tail;
    assert forall i :: 0 <= i < |ds| ==> s[i] == ds[i];
    assert |ds| < |s| ==> s[|ds|] == tail[0];
    assert s[..|ds|] == ds && s[|ds|..] == tail;
  }

  /**
   * A number written in decimal and followed by a two-character separator
   * whose first character is not a digit (`"x "`, `"X "`, `"  "`) reads back
   * as that number, and the separator is consumed.
   */
  lemma ParseU16RoundTrip(n: u16, sep: string, rest: string)
    requires |sep| == 2 && !IsDigit(sep[0])
    ensures FitsU16(Decimal(n as nat) + sep + rest)
    ensures ParseU16Step(Decimal(n as nat) + sep + rest) == Step(Ok(n), rest)
  {
    var ds := Decimal(n as nat);
    var s := ds + sep + rest;
    assert s == ds + (sep + rest);
    DigitRunOfDigits(ds, sep + rest);
    DecimalRoundTrip(n as nat);
    assert (sep + rest)[2..] == rest;
  }

  /** Without leading digits the number read is 0, and two characters are still dropped. */
  lemma ParseU16WithoutDigits(s: string)
    requires s == [] || !IsDigit(s[0])
    ensures FitsU16(s)
    ensures ParseU16Step(s) == Step(Ok(0), DropUpTo(s, 2))
  {
    DigitRunOfDigits([], s);
  }

  /** `"3x Island"` reads 3 and leaves `"Island"`. */
  lemma ParseU16LowerX()
    ensures FitsU16("3x Island") && ParseU16Step("3x Island") == Step(Ok(3), "Island")
  {
    assert Decimal(3) == "3";
    ParseU16RoundTrip(3, "x ", "Island");
    assert "3x Island" == Decimal(3) + "x " + "Island";
  }

  /** `"3X Island"` reads 3 and leaves `"Island"`. */
  lemma ParseU16UpperX()
    ensures FitsU16("3X Island") && ParseU16Step("3X Island") == Step(Ok(3), "Island")
  {
    assert Decimal(3) == "3";
    ParseU16RoundTrip(3, "X ", "Island");
    assert "3X Island" == Decimal(3) + "X " + "Island";
  }

  /** `"3 Island"` reads 3 and leaves `"sland"`: the space and the `I` are both dropped. */
  lemma ParseU16NoX()
    ensures FitsU16("3 Island") && ParseU16Step("3 Island") == Step(Ok(3), "sland")
  {
    assert Decimal(3) == "3";
    ParseU16RoundTrip(3, " I", "sland");
    assert "3 Island" == Decimal(3) + " I" + "sland";
  }

  /** The two characters after the digits are dropped whatever they are. */
  lemma ParseU16DropsTwoWhateverTheyAre()
    ensures FitsU16("3Island") && ParseU16Step("3Island") == Step(Ok(3), "land")
  {
    assert Decimal(3) == "3";
    ParseU16RoundTrip(3, "Is", "land");
    assert "3Island" == Decimal(3) + "Is" + "land";
  }

  /** `eat_char` drops a whole character, so a non-ASCII `×` separator is dropped like an `x`. */
  lemma ParseU16NonAsciiSeparator()
    ensures FitsU16("3\U{D7} Island") && ParseU16Step("3\U{D7} Island") == Step(Ok(3), "Island")
  {
    assert Decimal(3) == "3";
    ParseU16RoundTrip(3, "\U{D7} ", "Island");
    assert "3\U{D7} Island" == Decimal(3) + "\U{D7} " + "Island";
  }

  /**
   * A decklist line `<n>x <name>` lexes as the number `n` and then the name,
   * and the newline that ends it is consumed.
   */
  lemma DecklistLineRoundTrip(n: u16, name: string, rest: string)
    requires name != [] && IsAsciiLetter(name[0]) && '\n' !in name
    ensures FitsU16(Decimal(n as nat) + "x " + name + "\n" + rest)
    ensures DeserializeAnyStep(Decimal(n as nat) + "x " + name + "\n" + rest)
      == Step(Ok(U16(n)), name + "\n" + rest)
    ensures FitsU16(name + "\n" + rest)
    ensures DeserializeAnyStep(name + "\n" + rest) == Step(Ok(Str(name)), rest)
  {
    var line := Decimal(n as nat) + "x " + name + "\n" + rest;
    assert line == Decimal(n as nat) + "x " + (name + "\n" + rest);
    ParseU16RoundTrip(n, "x ", name + "\n" + rest);
    var tail := name + "\n" + rest;
    ParseU16WithoutDigits(tail);
    assert '\n' in tail by { assert tail[|name|] == '\n'; }
    var st := ParseStrStep(tail);
    assert st.result.value + "\n" + st.rest == name + "\n" + rest;
    NewlineSplitUnique(st.result.value, st.rest, name, rest);
  }

  /** Splitting at a newline that the first part does not contain is unique. */
  lemma NewlineSplitUnique(a: string, b: string, c: string, d: string)
    requires '\n' !in a && '\n' !in c
    requires a + "\n" + b == c + "\n" + d
    ensures a == c && b == d
  {
    var s := a + "\n" + b;
    assert forall i :: 0 <= i < |a| ==> s[i] == a[i];
    assert forall i :: 0 <= i < |c| ==> s[i] == c[i];
    assert s[|a|] == '\n' && s[|c|] == '\n';
    assert a == s[..|a|] && c == s[..|c|];
    assert b == s[|a| + 1..] && d == s[|c| + 1..];
  }

  /**
   * A last line with no newline is returned but not consumed: the next element
   * is that same line again, read from that same input.
   */
  lemma UnterminatedLastLineIsNotConsumed(line: string)
    requires line != [] && IsAsciiLetter(line[0]) && '\n' !in line
    ensures FitsU16(line)
    ensures NextElementStep(line) == Step(Ok(Some(Str(line))), line)
  {
    ParseU16WithoutDigits(line);
  }

  /** Comment lines and indented lines are not skipped: they are a `Syntax` error. */
  lemma CommentLineIsSyntaxError(line: string)
    requires line != [] && line[0] in "#/ \t"
    ensures FitsU16(line)
    ensures DeserializeAnyStep(line) == Step(Err(Syntax), line)
    ensures FromStrAny(line) == Err(Syntax)
  {
    ParseU16WithoutDigits(line);
  }

  /** `from_str` (accepting visitor) accepts a single line only when its newline ends the input. */
  lemma FromStrOfOneLine()
    ensures FitsU16("Island\n") && FromStrAny("Island\n") == Ok(Str("Island"))
    ensures FitsU16("Island") && FromStrAny("Island") == Err(TrailingCharacters)
  {
    ParseU16WithoutDigits("Island\n");
    ParseU16WithoutDigits("Island");
    assert "Island\n" == "Island" + "\n" + "";
    DecklistLineRoundTrip(3, "Island", "");
  }

  /** `from_str` (accepting visitor): a bare number is read whole; a number followed by a name leaves the name behind. */
  lemma FromStrOfNumber()
    ensures FitsU16("3") && FromStrAny("3") == Ok(U16(3))
    ensures FitsU16("3x Island") && FromStrAny("3x Island") == Err(TrailingCharacters)
  {
    assert Decimal(3) == "3";
    DigitRunOfDigits("3", "");
    assert "3" + "" == "3";
    DecimalRoundTrip(3);
    ParseU16RoundTrip(3, "x ", "Island");
    assert "3x Island" == Decimal(3) + "x " + "Island";
  }

  // ---------------------------------------------------------------------------
  // The quantity separator as the decklist format intends it

  predicate IsBlank(c: char) { c == ' ' || c == '\t' }

  predicate AllBlank(s: string) { forall i :: 0 <= i < |s| ==> IsBlank(s[i]) }

  /** `s` without its leading blanks. */
  function SkipBlanks(s: string): (r: string)
    ensures |r| <= |s|
  {
    if s != [] && IsBlank(s[0]) then SkipBlanks(s[1..]) else s
  }

  lemma {:induction false} SkipBlanksPrefix(blanks: string, rest: string)
    requires AllBlank(blanks)
    requires rest == [] || !IsBlank(rest[0])
    ensures SkipBlanks(blanks + rest) == rest
  {
    if blanks == [] {
      assert blanks + rest == rest;
    } else {
      assert (blanks + rest)[1..] == blanks[1..] + rest;
      SkipBlanksPrefix(blanks[1..], rest);
    }
  }

  predicate IsTimes(c: char) { c == 'x' || c == 'X' }

  /** Right after the digits: an optional `x` or `X`, then blanks, skipped. */
  function SkipSeparator(s: string): string
  {
    SkipBlanks(if s != [] && IsTimes(s[0]) then s[1..] else s)
  }

  /**
   * The quantity as the decklist format means it: the digits, then an
   * optional `x` or `X` and blanks are consumed, and nothing else.
   */
  function ParseQuantityStep(input: string): (st: Step<u16>)
    requires FitsU16(input)
  {
    Step(Ok(LeadingNumber(input) as u16), SkipSeparator(input[DigitRun(input)..]))
  }

  /** The separator `x`/`X`/nothing followed by blanks is skipped, and the name is not touched. */
  lemma SkipSeparatorExactly(x: string, blanks: string, name: string)
    requires x in ["", "x", "X"] && AllBlank(blanks) && (x != [] || blanks != [])
    requires name != [] && !IsBlank(name[0])
    ensures SkipSeparator(x + blanks + name) == name
  {
    if x == [] {
      assert x + blanks + name == blanks + name;
      assert blanks[0] == (blanks + name)[0] && !IsTimes(blanks[0]);
    } else {
      assert IsTimes(x[0]);
      assert (x + blanks + name)[1..] == blanks + name;
    }
    SkipBlanksPrefix(blanks, name);
  }

  /**
   * `<n>x <name>`, `<n>X <name>`, `<n> <name>` and `<n>x<name>` all read `n`
   * and leave exactly `<name>`, whatever letter the name starts with.
   */
  lemma ParseQuantityRoundTrip(n: u16, x: string, blanks: string, name: string)
    requires x in ["", "x", "X"] && AllBlank(blanks) && (x != [] || blanks != [])
    requires name != [] && !IsBlank(name[0])
    ensures FitsU16(Decimal(n as nat) + x + blanks + name)
    ensures ParseQuantityStep(Decimal(n as nat) + x + blanks + name) == Step(Ok(n), name)
  {
    var ds := Decimal(n as nat);
    var tail := x + blanks + name;
    assert ds + x + blanks + name == ds + tail;
    assert tail[0] == if x != [] then x[0] else blanks[0];
    DigitRunOfDigits(ds, tail);
    DecimalRoundTrip(n as nat);
    SkipSeparatorExactly(x, blanks, name);
  }

  /** The intended reading of `"3 Island"`: 3 and `"Island"` (the code as written leaves `"sland"`). */
  lemma ParseQuantityNoX()
    ensures FitsU16("3 Island") && ParseQuantityStep("3 Island") == Step(Ok(3), "Island")
  {
    assert Decimal(3) == "3";
    ParseQuantityRoundTrip(3, "", " ", "Island");
    assert "3 Island" == Decimal(3) + "" + " " + "Island";
  }

  /** A name that starts with `X` keeps its `X` when a blank separates it from the quantity. */
  lemma ParseQuantityKeepsLeadingX()
    ensures FitsU16("2 Xenagos") && ParseQuantityStep("2 Xenagos") == Step(Ok(2), "Xenagos")
  {
    assert Decimal(2) == "2";
    ParseQuantityRoundTrip(2, "", " ", "Xenagos");
    assert "2 Xenagos" == Decimal(2) + "" + " " + "Xenagos";
  }

  // ---------------------------------------------------------------------------
  // The last line as the decklist format intends it

  /**
   * `parse_str` as its no-newline branch means it: a last line without a
   * newline is returned AND consumed, so every successful read makes progress.
   */
  function ParseLineStep(input: string): (st: Step<string>)
    ensures st.result.Err? <==> input == []
    ensures st.result.Err? ==> st == Step(Err(Eof), input)
    ensures st.result.Ok? ==> '\n' !in st.result.value && |st.rest| < |input|
    ensures '\n' in input ==> input == st.result.value + "\n" + st.rest
    ensures '\n' !in input ==> st.rest == [] && (input != [] ==> st.result.value == input)
  {
    if '\n' in input then ParseStrStep(input)
    else if input != [] then Step(Ok(input), [])
    else Step(Err(Eof), input)
  }

  /** The correction changes only the unterminated last line; every other read is as written. */
  lemma ParseLineDiffersOnlyOnLastLine(input: string)
    ensures ParseLineStep(input).result == ParseStrStep(input).result
    ensures ParseLineStep(input).rest != ParseStrStep(input).rest <==> input != [] && '\n' !in input
  {
  }
}
