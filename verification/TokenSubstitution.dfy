/** Putting frame numbers into a command line: three replace-all passes, one per token, amount to one
    simultaneous substitution. */
module TokenSubstitution {
  import opened Wrappers
  import opened ChunkPlan

  const FRAME := "{frame}" // an older name for {chunk_start}
  const CHUNK_START := "{chunk_start}"
  const CHUNK_END := "{chunk_end}"

  const DIGITS := "0123456789"

  function Digits(n: nat): (s: string)
    ensures s != "" && forall c :: c in s ==> '0' <= c <= '9'
  {
    (if n < 10 then "" else Digits(n / 10)) + [DIGITS[n % 10]]
  }

  function Decimal(n: int): string { if n < 0 then "-" + Digits(-n) else Digits(n) }

  /** Reading a numeral, digit by digit from the left. */
  function Parsed(s: string): int
    decreases |s|
  {
    if s != "" && s[0] == '-' then -Parsed(s[1..])
    else if s == "" then 0
    else 10 * Parsed(s[..|s| - 1]) + (s[|s| - 1] as int - '0' as int)
  }

  /** Digits without a zero in front, unless that is all; a sign only before a number that is not 0. */
  predicate IsNumeral(s: string) {
    var d := if s != "" && s[0] == '-' then s[1..] else s;
    && d != "" && (forall c | c in d :: '0' <= c <= '9')
    && (d[0] == '0' ==> s == "0")
  }

  lemma ParsedLast(s: string, c: char)
    requires s == "" || s[0] != '-'
    requires c != '-'
    ensures Parsed(s + [c]) == 10 * Parsed(s) + (c as int - '0' as int)
  {
    assert (s + [c])[..|s|] == s && (s + [c])[|s|] == c;
  }

  lemma {:induction false} DigitsRead(n: nat)
    ensures Parsed(Digits(n)) == n && (Digits(n)[0] == '0' ==> n == 0) && (n == 0 ==> Digits(n) == "0")
  {
    hide Parsed;
    var s, c := if n < 10 then "" else Digits(n / 10), DIGITS[n % 10];
    DigitIs(n % 10);
    if n >= 10 {
      DigitsRead(n / 10);
      assert s[0] in s;
    }
    EmptyReads();
    ParsedLast(s, c);
    assert Digits(n) == s + [c];
  }

  lemma EmptyReads()
    ensures Parsed("") == 0
  {
  }

  lemma DigitIs(k: nat)
    requires k < 10
    ensures DIGITS[k] as int == '0' as int + k
  {
  }

  /** A number is written as the numeral that reads back as it. */
  lemma DecimalReads(n: int)
    ensures Parsed(Decimal(n)) == n && IsNumeral(Decimal(n))
  {
    hide Digits;
    DigitsRead(if n < 0 then -n else n);
    if n < 0 {
      var s := Decimal(n);
      assert s[1..] == Digits(-n);
    } else {
      assert Digits(n)[0] in Digits(n);
    }
  }

  // ---- One pass ----

  predicate StartsWith(s: string, token: string) { token <= s }

  /** Every occurrence of the token, left to right, replaced by the text. */
  function Replaced(s: string, token: string, text: string): string
    requires token != ""
    decreases |s|
  {
    if s == "" then ""
    else if StartsWith(s, token) then text + Replaced(s[|token|..], token, text)
    else [s[0]] + Replaced(s[1..], token, text)
  }

  /** The first place, from pos on, where the token occurs. */
  method Find(s: string, token: string, pos: nat) returns (found: Option<nat>)
    requires pos <= |s| && token != ""
    ensures found.Some? ==> pos <= found.value < |s| && StartsWith(s[found.value..], token)
    ensures forall i :: pos <= i < (if found.Some? then found.value else |s|) ==> !StartsWith(s[i..], token)
  {
    var i := pos;
    while i < |s|
      invariant pos <= i <= |s|
      invariant forall j :: pos <= j < i ==> !StartsWith(s[j..], token)
    {
      if i + |token| <= |s| && s[i..i + |token|] == token {
        return Some(i);
      }
      i := i + 1;
    }
    return None;
  }

  /** The pass as written: find from the cursor, replace in place, move the cursor past the text. */
  method ReplaceAll(s: string, token: string, text: string) returns (result: string)
    requires token != ""
    ensures result == Replaced(s, token, text)
  {
    hide Replaced, StartsWith;
    result := s;
    var pos: nat := 0;
    assert s[0..] == s;
    ghost var left := |s|;
    while true
      invariant pos <= |result| && |result| - pos == left
      invariant result[..pos] + Replaced(result[pos..], token, text) == Replaced(s, token, text)
      decreases left
    {
      var found := Find(result, token, pos);
      if found.None? {
        OnlyCopied(result, pos, token, text);
        return;
      }
      var at := found.value;
      OneReplacement(result, pos, at, token, text);
      result := result[..at] + text + result[at + |token|..];
      pos := at + |text|;
      left := |result| - pos;
    }
  }

  lemma HeadReplaced(s: string, token: string, text: string)
    requires token != "" && StartsWith(s, token)
    ensures |token| <= |s| && Replaced(s, token, text) == text + Replaced(s[|token|..], token, text)
  {
  }

  lemma SeenFromCursor(r: string, pos: nat, at: nat, token: string)
    requires pos <= at <= |r| && forall i :: pos <= i < at ==> !StartsWith(r[i..], token)
    ensures forall i :: 0 <= i < at - pos ==> !StartsWith(r[pos..][i..], token)
    ensures r[pos..][at - pos..] == r[at..]
  {
  }

  lemma OneReplacement(r: string, pos: nat, at: nat, token: string, text: string)
    requires token != "" && pos <= at < |r| && StartsWith(r[at..], token)
    requires forall i :: pos <= i < at ==> !StartsWith(r[i..], token)
    ensures at + |token| <= |r|
    ensures var r' := r[..at] + text + r[at + |token|..]; var pos' := at + |text|;
            r'[..pos'] + Replaced(r'[pos'..], token, text) == r[..pos] + Replaced(r[pos..], token, text)
  {
    hide Replaced, StartsWith;
    HeadReplaced(r[at..], token, text);
    SeenFromCursor(r, pos, at, token);
    Untouched(r[pos..], at - pos, token, text);
    Spliced(r, pos, at, at + |token|, text, Replaced(r[at + |token|..], token, text));
    assert r[at..][|token|..] == r[at + |token|..];
  }

  lemma Spliced(r: string, pos: nat, at: nat, end: nat, text: string, tail: string)
    requires pos <= at <= end <= |r|
    ensures var r' := r[..at] + text + r[end..]; var pos' := at + |text|;
            && r'[pos'..] == r[end..]
            && r'[..pos'] + tail == r[..pos] + (r[pos..][..at - pos] + (text + tail))
  {
    assert r[pos..][..at - pos] == r[pos..at];
    assert r[..at] == r[..pos] + r[pos..at];
  }

  lemma OnlyCopied(r: string, pos: nat, token: string, text: string)
    requires token != "" && pos <= |r| && forall i :: pos <= i < |r| ==> !StartsWith(r[i..], token)
    ensures r[..pos] + Replaced(r[pos..], token, text) == r
  {
    SeenFromCursor(r, pos, |r|, token);
    Untouched(r[pos..], |r| - pos, token, text);
  }

  /** Up to the first occurrence a pass only copies. */
  lemma {:induction false} Untouched(s: string, k: nat, token: string, text: string)
    requires token != "" && k <= |s| && forall i :: 0 <= i < k ==> !StartsWith(s[i..], token)
    ensures Replaced(s, token, text) == s[..k] + Replaced(s[k..], token, text)
    decreases k
  {
    hide StartsWith;
    assert s[0..] == s;
    if k > 0 {
      SeenFromCursor(s, 1, k, token);
      Untouched(s[1..], k - 1, token, text);
    }
  }

  /** All three tokens of a chunk. */
  method SubstituteTokens(input: string, chunk: Range) returns (result: string)
    ensures result == Simultaneous(input, chunk)
    ensures input in {"{frame}", "{chunk_start}"} ==> IsNumeral(result) && Parsed(result) == chunk.first
    ensures input == "{chunk_end}" ==> IsNumeral(result) && Parsed(result) == chunk.last
  {
    hide Replaced, Scan, IsToken, IsForeign, Apart, Decimal;
    result := ReplaceAll(input, FRAME, Decimal(chunk.first));
    result := ReplaceAll(result, CHUNK_START, Decimal(chunk.first));
    result := ReplaceAll(result, CHUNK_END, Decimal(chunk.last));
    TokensAreApart();
    NumbersAreForeign(chunk.first);
    PassesAreOneScan(input, FRAME, Decimal(chunk.first), CHUNK_START, Decimal(chunk.first), CHUNK_END, Decimal(chunk.last));
    DecimalReads(chunk.first);
    DecimalReads(chunk.last);
    LoneToken(chunk);
  }

  lemma LoneToken(chunk: Range)
    ensures Simultaneous("{frame}", chunk) == Decimal(chunk.first)
    ensures Simultaneous("{chunk_start}", chunk) == Decimal(chunk.first)
    ensures Simultaneous("{chunk_end}", chunk) == Decimal(chunk.last)
  {
    hide Decimal;
    TokensAreApart();
    var x, y, z := Decimal(chunk.first), Decimal(chunk.first), Decimal(chunk.last);
    ScanOfText("", "{frame}", "", chunk);
    ScanOfText("", "{chunk_start}", "", chunk);
    ScanOfText("", "{chunk_end}", "", chunk);
    assert forall s: string :: "" + s + "" == s;
    assert Simultaneous("", chunk) == "";
  }

  /** In any command line, text without a brace stays as it is, and a token after it gives way to its number;
      and so on with the rest. */
  lemma {:induction false} ScanOfText(text: string, token: string, rest: string, chunk: Range)
    requires '{' !in text && token in {"{frame}", "{chunk_start}", "{chunk_end}"}
    ensures Simultaneous(text + token + rest, chunk)
            == text + Decimal(if token == "{chunk_end}" then chunk.last else chunk.first) + Simultaneous(rest, chunk)
    decreases |text|
  {
    hide Decimal, Simultaneous;
    if text == "" {
      TokenGivesWay(token, rest, chunk);
      assert "" + token + rest == token + rest;
    } else {
      var s, tail := text + token + rest, text[1..] + token + rest;
      assert s[0] == text[0] && text[0] in text && s[1..] == tail;
      CharStays(s, chunk);
      ScanOfText(text[1..], token, rest, chunk);
      assert [text[0]] + text[1..] == text;
    }
  }

  lemma CharStays(s: string, chunk: Range)
    requires s != "" && s[0] != '{'
    ensures Simultaneous(s, chunk) == [s[0]] + Simultaneous(s[1..], chunk)
  {
    hide Decimal;
    assert FRAME[0] == CHUNK_START[0] == CHUNK_END[0] == '{';
  }

  lemma TokenGivesWay(token: string, rest: string, chunk: Range)
    requires token in {"{frame}", "{chunk_start}", "{chunk_end}"}
    ensures Simultaneous(token + rest, chunk)
            == Decimal(if token == "{chunk_end}" then chunk.last else chunk.first) + Simultaneous(rest, chunk)
  {
    hide Decimal;
    var s := token + rest;
    assert s[|token|..] == rest && StartsWith(s, token);
    OnlyThisToken(token, rest);
  }

  lemma OnlyThisToken(token: string, rest: string)
    requires token in {"{frame}", "{chunk_start}", "{chunk_end}"}
    ensures forall other :: other in {FRAME, CHUNK_START, CHUNK_END} && other != token ==> !StartsWith(token + rest, other)
  {
    TokensAreApart();
    var s := token + rest;
    assert s[1] == token[1];
    assert token != "{frame}" ==> s[7] == token[7];
  }

  // ---- The meaning ----

  /** One scan: at each place, whichever token stands there gives way to its text. */
  function Scan(s: string, x: string, xText: string, y: string, yText: string, z: string, zText: string): string
    requires x != "" && y != "" && z != ""
    decreases |s|
  {
    if s == "" then ""
    else if StartsWith(s, x) then xText + Scan(s[|x|..], x, xText, y, yText, z, zText)
    else if StartsWith(s, y) then yText + Scan(s[|y|..], x, xText, y, yText, z, zText)
    else if StartsWith(s, z) then zText + Scan(s[|z|..], x, xText, y, yText, z, zText)
    else [s[0]] + Scan(s[1..], x, xText, y, yText, z, zText)
  }

  function Simultaneous(s: string, chunk: Range): string {
    Scan(s, FRAME, Decimal(chunk.first), CHUNK_START, Decimal(chunk.first), CHUNK_END, Decimal(chunk.last))
  }

  /** Tokens open with the one brace they have. */
  predicate IsToken(token: string) { token != "" && token[0] == '{' && '{' !in token[1..] }

  /** Text of which no token contains a character. */
  predicate IsForeign(text: string, token: string) { text != "" && '{' !in text && forall c | c in text :: c !in token }

  /** A pass neither makes nor breaks the tail of another token: the output starts with it exactly
      when the input does. */
  lemma {:induction false} TailSurvives(s: string, tail: string, token: string, text: string)
    requires IsToken(token) && '{' !in tail && text != "" && forall c :: c in text ==> c !in tail
    ensures StartsWith(Replaced(s, token, text), tail) <==> StartsWith(s, tail)
    ensures StartsWith(s, tail) ==> Replaced(s, token, text)[|tail|..] == Replaced(s[|tail|..], token, text)
    decreases |s|
  {
    var r := Replaced(s, token, text);
    if tail == "" {
      assert s[0..] == s && r[0..] == r;
    } else if s != "" {
      if StartsWith(s, token) {
        assert r[0] == text[0] && text[0] in text && tail[0] in tail;
        assert s[0] == '{';
      } else {
        TailSurvives(s[1..], tail[1..], token, text);
        Peel(s, tail);
        Peel(r, tail);
        assert r[1..] == Replaced(s[1..], token, text);
        if StartsWith(s, tail) {
          assert r[|tail|..] == r[1..][|tail| - 1..];
          assert s[|tail|..] == s[1..][|tail| - 1..];
        }
      }
    }
  }

  lemma Peel(s: string, tail: string)
    requires s != "" && tail != ""
    ensures StartsWith(s, tail) <==> s[0] == tail[0] && StartsWith(s[1..], tail[1..])
    ensures StartsWith(s, tail) ==> |tail| <= |s| && s[|tail|..] == s[1..][|tail| - 1..]
  {
  }

  lemma CharCopied(s: string, token: string, text: string)
    requires token != "" && s != "" && !StartsWith(s, token)
    ensures Replaced(s, token, text) == [s[0]] + Replaced(s[1..], token, text)
  {
  }

  /** A pass for one token leaves the occurrences of another where they are. */
  lemma OtherTokenSurvives(s: string, other: string, token: string, text: string)
    requires IsToken(token) && IsToken(other) && !StartsWith(other, token) && !StartsWith(token, other) && IsForeign(text, other)
    requires s != "" && !StartsWith(s, token)
    ensures StartsWith(Replaced(s, token, text), other) <==> StartsWith(s, other)
    ensures StartsWith(s, other) ==> Replaced(s, token, text)[|other|..] == Replaced(s[|other|..], token, text)
  {
    hide Replaced, StartsWith;
    var r := Replaced(s, token, text);
    CharCopied(s, token, text);
    TailSurvives(s[1..], other[1..], token, text);
    Peel(s, other);
    Peel(r, other);
    assert r[1..] == Replaced(s[1..], token, text);
  }

  /** A pass copies text it has no token in. */
  lemma {:induction false} TextIsCopied(text: string, s: string, token: string, number: string)
    requires IsToken(token) && '{' !in text
    ensures Replaced(text + s, token, number) == text + Replaced(s, token, number)
    decreases |text|
  {
    if text == "" {
      assert text + s == s;
    } else {
      assert (text + s)[1..] == text[1..] + s;
      assert (text + s)[0] == text[0] && text[0] in text;
      TextIsCopied(text[1..], s, token, number);
      assert text == [text[0]] + text[1..];
    }
  }

  /** No token is the beginning of another. */
  predicate Apart(x: string, y: string) { !StartsWith(x, y) && !StartsWith(y, x) }

  /** Three passes with such tokens and texts, in the order given, are one scan: for every input,
      whatever it holds, the text put in by one pass neither forms nor breaks a token of another. */
  lemma {:induction false} PassesAreOneScan(s: string, x: string, xText: string, y: string, yText: string, z: string, zText: string)
    requires IsToken(x) && IsToken(y) && IsToken(z) && Apart(x, y) && Apart(x, z) && Apart(y, z)
    requires IsForeign(xText, y) && IsForeign(xText, z) && IsForeign(yText, z)
    ensures Replaced(Replaced(Replaced(s, x, xText), y, yText), z, zText) == Scan(s, x, xText, y, yText, z, zText)
    decreases |s|
  {
    var one := Replaced(s, x, xText);
    var two := Replaced(one, y, yText);
    if s == "" {
    } else if StartsWith(s, x) {
      PassesAreOneScan(s[|x|..], x, xText, y, yText, z, zText);
      TextIsCopied(xText, Replaced(s[|x|..], x, xText), y, yText);
      TextIsCopied(xText, Replaced(Replaced(s[|x|..], x, xText), y, yText), z, zText);
    } else {
      OtherTokenSurvives(s, y, x, xText);
      OtherTokenSurvives(s, z, x, xText);
      if StartsWith(s, y) {
        PassesAreOneScan(s[|y|..], x, xText, y, yText, z, zText);
        TextIsCopied(yText, Replaced(one[|y|..], y, yText), z, zText);
      } else {
        OtherTokenSurvives(one, z, y, yText);
        if StartsWith(s, z) {
          PassesAreOneScan(s[|z|..], x, xText, y, yText, z, zText);
        } else {
          PassesAreOneScan(s[1..], x, xText, y, yText, z, zText);
        }
      }
    }
  }

  lemma NumbersAreForeign(n: int)
    ensures IsForeign(Decimal(n), CHUNK_START) && IsForeign(Decimal(n), CHUNK_END)
  {
    hide Digits;
    NoNumberInTokens();
  }

  lemma NoNumberInTokens()
    ensures forall c :: c == '-' || '0' <= c <= '9' ==> c != '{' && c !in CHUNK_START && c !in CHUNK_END
  {
  }

  lemma TokensAreApart()
    ensures IsToken(FRAME) && IsToken(CHUNK_START) && IsToken(CHUNK_END)
    ensures Apart(FRAME, CHUNK_START) && Apart(FRAME, CHUNK_END) && Apart(CHUNK_START, CHUNK_END)
  {
    assert FRAME[1] == 'f' && CHUNK_START[1] == 'c' && CHUNK_END[1] == 'c';
    assert CHUNK_START[7] == 's' && CHUNK_END[7] == 'e';
  }
}
