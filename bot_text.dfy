/**
 * The string helpers of bot/bot.py: fixed-size chunking, the substring test
 * behind Python's `in`, the mention removal `replace(...).strip()`, answer
 * truncation, and the decimal printing and parsing of the menu's page numbers.
 */
module BotText {
  import opened Wrappers

  /** `range()` with a step of 0 raises `ValueError: range() arg 3 must not be zero`. */
  datatype ChunkError = ZeroChunkSize

  function Concat(chunks: seq<string>): string
  {
    if chunks == [] then [] else chunks[0] + Concat(chunks[1..])
  }

  /**
   * What the generator of `split_text_into_chunks` yields once its `range` has
   * reached offset `start`: `text[i : i + size]` for i = start, start + size, ...
   */
  function ChunksFrom(text: string, size: nat, start: nat): (chunks: seq<string>)
    requires 0 < size && start <= |text|
    ensures Concat(chunks) == text[start..]
    ensures forall i :: 0 <= i < |chunks| ==> 0 < |chunks[i]| <= size
    ensures forall i :: 0 <= i < |chunks| - 1 ==> |chunks[i]| == size
    decreases |text| - start
  {
    if start == |text| then []
    else
      var end := if start + size <= |text| then start + size else |text|;
      var rest := ChunksFrom(text, size, end);
      assert Concat([text[start..end]] + rest) == text[start..end] + Concat(rest) by {
        assert ([text[start..end]] + rest)[1..] == rest;
      }
      assert text[start..end] + text[end..] == text[start..];
      [text[start..end]] + rest
  }

  /** `split_text_into_chunks(text, chunk_size)`, with the generator collected into a list. */
  function SplitTextIntoChunks(text: string, chunkSize: int): (r: Result<seq<string>, ChunkError>)
    ensures r.Err? <==> chunkSize == 0
    ensures chunkSize < 0 ==> r == Ok([])
    ensures chunkSize > 0 ==> r.Ok? && Concat(r.value) == text
    ensures chunkSize > 0 ==> forall i :: 0 <= i < |r.value| ==> 0 < |r.value[i]| <= chunkSize
    ensures chunkSize > 0 ==> forall i :: 0 <= i < |r.value| - 1 ==> |r.value[i]| == chunkSize
  {
    if chunkSize == 0 then Err(ZeroChunkSize)
    else if chunkSize < 0 then Ok([])  // a negative step over [0, len) is an empty range
    else Ok(ChunksFrom(text, chunkSize, 0))
  }

  /** The number of chunks is the length divided by the size, rounded up. */
  lemma {:induction false} ChunkCount(text: string, size: nat, start: nat)
    requires 0 < size && start <= |text|
    ensures var n := |ChunksFrom(text, size, start)|;
      && (n == 0 <==> start == |text|)
      && (0 < n ==> (n - 1) * size < |text| - start <= n * size)
    decreases |text| - start
  {
    if start < |text| && start + size < |text| {
      ChunkCount(text, size, start + size);
      var n := |ChunksFrom(text, size, start)|;
      assert n * size == (n - 1) * size + size;
      assert (n - 1) * size == (n - 2) * size + size;
    }
  }

  /** `pattern` appears in `text` starting at index `i`. */
  ghost predicate OccursAt(text: string, pattern: string, i: int)
  {
    0 <= i && i + |pattern| <= |text| && text[i..i + |pattern|] == pattern
  }

  lemma OccursShift(text: string, pattern: string, i: nat)
    requires 0 < |text|
    ensures OccursAt(text[1..], pattern, i) <==> OccursAt(text, pattern, i + 1)
  {
    if i + |pattern| <= |text[1..]| {
      assert text[1..][i..i + |pattern|] == text[i + 1..i + 1 + |pattern|];
    }
  }

  /** Python's `pattern in text` on strings. */
  function Contains(text: string, pattern: string): (r: bool)
    ensures r <==> exists i :: OccursAt(text, pattern, i)
    decreases |text|
  {
    if |pattern| > |text| then
      assert forall i :: !OccursAt(text, pattern, i);
      false
    else if text[..|pattern|] == pattern then
      assert OccursAt(text, pattern, 0);
      true
    else
      var rest := Contains(text[1..], pattern);
      assert rest <==> exists i :: OccursAt(text, pattern, i) by {
        if rest {
          var i :| OccursAt(text[1..], pattern, i);
          OccursShift(text, pattern, i);
        }
        if exists i :: OccursAt(text, pattern, i) {
          var i :| OccursAt(text, pattern, i);
          assert i != 0;
          OccursShift(text, pattern, i - 1);
        }
      }
      rest
  }

  /** Python's `s.replace(pattern, "")` for a non-empty pattern: occurrences removed left to right. */
  function RemoveAll(s: string, pattern: string): (r: string)
    requires 0 < |pattern|
    ensures |r| <= |s|
    decreases |s|
  {
    if |s| < |pattern| then s
    else if s[..|pattern|] == pattern then RemoveAll(s[|pattern|..], pattern)
    else [s[0]] + RemoveAll(s[1..], pattern)
  }

  /** `pattern` occurs at `i` and nowhere before it. */
  ghost predicate FirstOccurrence(text: string, pattern: string, i: int)
  {
    OccursAt(text, pattern, i) && forall j :: 0 <= j < i ==> !OccursAt(text, pattern, j)
  }

  /**
   * What `replace` does: the text before the leftmost occurrence is kept, the
   * occurrence is dropped, and the search goes on after it, so occurrences
   * never overlap.
   */
  lemma {:induction false} RemoveAllFirstOccurrence(s: string, pattern: string, i: nat)
    requires 0 < |pattern|
    requires FirstOccurrence(s, pattern, i)
    ensures RemoveAll(s, pattern) == s[..i] + RemoveAll(s[i + |pattern|..], pattern)
    decreases i
  {
    if i == 0 {
      assert s[..|pattern|] == pattern;
      assert RemoveAll(s, pattern) == RemoveAll(s[|pattern|..], pattern);
      assert s[..0] == [];
    } else {
      assert !OccursAt(s, pattern, 0);
      FirstOccurrenceShift(s, pattern, i);
      RemoveAllFirstOccurrence(s[1..], pattern, i - 1);
      KeptFirstCharacter(s, pattern, i);
    }
  }

  /** One step of `RemoveAllFirstOccurrence`: a first character that starts no occurrence is kept. */
  lemma KeptFirstCharacter(s: string, pattern: string, i: nat)
    requires 0 < |pattern| && 0 < i && i + |pattern| <= |s| && s[..|pattern|] != pattern
    requires RemoveAll(s[1..], pattern) == s[1..][..i - 1] + RemoveAll(s[1..][i - 1 + |pattern|..], pattern)
    ensures RemoveAll(s, pattern) == s[..i] + RemoveAll(s[i + |pattern|..], pattern)
  {
    assert RemoveAll(s, pattern) == [s[0]] + RemoveAll(s[1..], pattern);
    assert s[1..][i - 1 + |pattern|..] == s[i + |pattern|..];
    KeptPrefix(s, i, RemoveAll(s, pattern), RemoveAll(s[1..], pattern), RemoveAll(s[i + |pattern|..], pattern));
  }

  lemma KeptPrefix(s: string, i: nat, whole: string, rest: string, removed: string)
    requires 0 < i <= |s|
    requires whole == [s[0]] + rest && rest == s[1..][..i - 1] + removed
    ensures whole == s[..i] + removed
  {
    assert [s[0]] + s[1..][..i - 1] == s[..i];
  }

  lemma FirstOccurrenceShift(s: string, pattern: string, i: nat)
    requires 0 < i && FirstOccurrence(s, pattern, i)
    ensures FirstOccurrence(s[1..], pattern, i - 1)
  {
    OccursShift(s, pattern, i - 1);
    forall j | 0 <= j < i - 1
      ensures !OccursAt(s[1..], pattern, j)
    {
      OccursShift(s, pattern, j);
      assert !OccursAt(s, pattern, j + 1);
    }
  }

  /** A text with no occurrence of the pattern comes back unchanged. */
  lemma {:induction false} RemoveAllAbsent(s: string, pattern: string)
    requires 0 < |pattern|
    requires !Contains(s, pattern)
    ensures RemoveAll(s, pattern) == s
    decreases |s|
  {
    if |s| >= |pattern| {
      assert !OccursAt(s, pattern, 0);
      forall i: nat
        ensures !OccursAt(s[1..], pattern, i)
      {
        OccursShift(s, pattern, i);
      }
      RemoveAllAbsent(s[1..], pattern);
      assert [s[0]] + s[1..] == s;
    }
  }

  /** Removal is not idempotent: taking "@bot" out of "@@botbot" leaves "@bot". */
  lemma RemoveAllNotClosing()
    ensures RemoveAll("@@botbot", "@bot") == "@bot"
  {
    assert "@@botbot"[..4][1] != "@bot"[1];
    assert "@@botbot"[1..] == "@botbot";
    assert "@botbot"[..4] == "@bot";
    assert "@botbot"[4..] == "bot";
    assert RemoveAll("bot", "@bot") == "bot";
  }

  /** The characters for which Python's `str.isspace()` holds, which `strip()` removes. */
  predicate IsSpace(c: char)
  {
    ('\t' <= c <= '\r') || ('\U{1C}' <= c <= '\U{1F}') || c == ' '
    || c == '\U{85}' || c == '\U{A0}' || c == '\U{1680}' || ('\U{2000}' <= c <= '\U{200A}')
    || c == '\U{2028}' || c == '\U{2029}' || c == '\U{202F}' || c == '\U{205F}' || c == '\U{3000}'
  }

  function StripLeft(s: string): (r: string)
    ensures |r| <= |s| && r == s[|s| - |r|..]
    ensures r == [] || !IsSpace(r[0])
    ensures forall i :: 0 <= i < |s| - |r| ==> IsSpace(s[i])
    decreases |s|
  {
    if s != [] && IsSpace(s[0]) then StripLeft(s[1..]) else s
  }

  function StripRight(s: string): (r: string)
    ensures |r| <= |s| && r == s[..|r|]
    ensures r == [] || !IsSpace(r[|r| - 1])
    ensures forall i :: |r| <= i < |s| ==> IsSpace(s[i])
    decreases |s|
  {
    if s != [] && IsSpace(s[|s| - 1]) then StripRight(s[..|s| - 1]) else s
  }

  /** `r` is the part of `s` starting at index `i`, and everything of `s` around it is whitespace. */
  ghost predicate StrippedAt(s: string, r: string, i: int)
  {
    && 0 <= i <= |s| - |r| && r == s[i..i + |r|]
    && (forall k :: 0 <= k < i ==> IsSpace(s[k]))
    && (forall k :: i + |r| <= k < |s| ==> IsSpace(s[k]))
  }

  /**
   * Python's `s.strip()`: the text between the leading and the trailing
   * whitespace. Only whitespace is removed, and the result neither starts nor
   * ends with whitespace, which fixes it.
   */
  function Strip(s: string): (r: string)
    ensures exists i :: StrippedAt(s, r, i)
    ensures r == [] || (!IsSpace(r[0]) && !IsSpace(r[|r| - 1]))
  {
    var left := StripLeft(s);
    var r := StripRight(left);
    StrippedBetween(s, left, r);
    r
  }

  lemma StrippedBetween(s: string, left: string, r: string)
    requires |left| <= |s| && left == s[|s| - |left|..] && forall k :: 0 <= k < |s| - |left| ==> IsSpace(s[k])
    requires |r| <= |left| && r == left[..|r|] && forall k :: |r| <= k < |left| ==> IsSpace(left[k])
    ensures StrippedAt(s, r, |s| - |left|)
  {
    var i := |s| - |left|;
    assert r == s[i..i + |r|];
    forall k | i + |r| <= k < |s|
      ensures IsSpace(s[k])
    {
      assert s[k] == left[k - i];
    }
  }

  /** Removing the bot mention in a group chat: `text.replace("@" + username, "").strip()`. */
  function WithoutMention(text: string, username: string): (r: string)
    ensures |r| <= |text|
    ensures !Contains(text, "@" + username) ==> r == Strip(text)
    ensures exists i :: StrippedAt(RemoveAll(text, "@" + username), r, i)
    ensures r == [] || (!IsSpace(r[0]) && !IsSpace(r[|r| - 1]))
  {
    if !Contains(text, "@" + username) then RemoveAllAbsent(text, "@" + username); Strip(text) else
    Strip(RemoveAll(text, "@" + username))
  }

  function Min(a: nat, b: nat): nat
  {
    if a < b then a else b
  }

  /** Telegram's message length limit, applied as `answer[:4096]`. */
  const MessageLimit: nat := 4096

  /** Python's `s[:limit]` for a non-negative limit. */
  function Truncated(s: string, limit: nat): (r: string)
    ensures |r| == if |s| <= limit then |s| else limit
    ensures r == s[..|r|]
  {
    if |s| <= limit then s else s[..limit]
  }

  function DigitChar(d: nat): char
    requires d < 10
  {
    "0123456789"[d]
  }

  predicate IsDigit(c: char)
  {
    '0' <= c <= '9'
  }

  /** Python's `str(n)` for a non-negative integer. */
  function DecimalString(n: nat): (s: string)
    ensures 0 < |s| && forall i :: 0 <= i < |s| ==> IsDigit(s[i])
    ensures Canonical(s) && (s[0] == '0' ==> n == 0)
  {
    if n < 10 then [DigitChar(n)] else DecimalString(n / 10) + [DigitChar(n % 10)]
  }

  function DigitValue(c: char): nat
    requires IsDigit(c)
  {
    (c as int) - ('0' as int)
  }

  function DigitsValue(s: string): nat
    requires forall i :: 0 <= i < |s| ==> IsDigit(s[i])
  {
    if s == [] then 0 else DigitsValue(s[..|s| - 1]) * 10 + DigitValue(s[|s| - 1])
  }

  /**
   * Python's `int(s)` on an optional minus sign followed by ASCII digits; `None`
   * stands for the `ValueError` it raises on any other text.
   */
  function ParseInt(s: string): (r: Option<int>)
    ensures r.Some? <==> Numeral(s) || (s != [] && s[0] == '-' && Numeral(s[1..]))
    ensures Numeral(s) ==> r == Some(DigitsValue(s))
    ensures s != [] && s[0] == '-' && Numeral(s[1..]) ==> r == Some(-(DigitsValue(s[1..]) as int))
    ensures r.Some? && r.value < 0 ==> s[0] == '-'
  {
    if s != [] && s[0] == '-' && 1 < |s| && forall i :: 1 <= i < |s| ==> IsDigit(s[i]) then
      var magnitude: int := DigitsValue(s[1..]);
      Some(-magnitude)
    else if s != [] && forall i :: 0 <= i < |s| ==> IsDigit(s[i]) then
      Some(DigitsValue(s))
    else None
  }

  /** A non-empty run of ASCII digits. */
  predicate Numeral(s: string)
  {
    s != [] && forall i :: 0 <= i < |s| ==> IsDigit(s[i])
  }

  /** A numeral as `str` prints it: no leading zero unless it is "0". */
  predicate Canonical(s: string)
  {
    Numeral(s) && (|s| == 1 || s[0] != '0')
  }

  /** Reading a canonical numeral and printing the number gives the numeral back. */
  lemma {:induction false} CanonicalRoundTrip(s: string)
    requires Canonical(s)
    ensures ParseInt(s).Some? && 0 <= ParseInt(s).value
    ensures DecimalString(ParseInt(s).value) == s
    decreases |s|
  {
    var v := DigitsValue(s);
    var last := s[|s| - 1];
    var front := s[..|s| - 1];
    assert v == DigitsValue(front) * 10 + DigitValue(last);
    assert DigitChar(DigitValue(last)) == last;
    if |s| == 1 {
      assert front == [];
      assert DecimalString(v) == [last];
    } else {
      assert front[0] == s[0];
      assert Canonical(front);
      LeadingDigitPositive(front);
      CanonicalRoundTrip(front);
      DivideByTen(v, DigitsValue(front), DigitValue(last));
      assert DecimalString(v) == front + [last];
      assert front + [last] == s;
    }
  }

  lemma DivideByTen(v: nat, q: nat, d: nat)
    requires d < 10 && v == q * 10 + d
    ensures v / 10 == q && v % 10 == d
  {
  }

  lemma LeadingDigitPositive(s: string)
    requires Numeral(s) && s[0] != '0'
    ensures DigitsValue(s) >= 1
    decreases |s|
  {
    if |s| > 1 {
      assert s[..|s| - 1][0] == s[0];
      LeadingDigitPositive(s[..|s| - 1]);
    }
  }

  /** Printing a page number and reading it back gives the number. */
  lemma {:induction false} DecimalRoundTrip(n: nat)
    ensures ParseInt(DecimalString(n)) == Some(n)
  {
    DigitsOfDecimal(n);
  }

  lemma {:induction false} DigitsOfDecimal(n: nat)
    ensures DigitsValue(DecimalString(n)) == n
  {
    var s := DecimalString(n);
    if n < 10 {
      assert s[..|s| - 1] == [];
      assert DigitValue(DigitChar(n)) == n;
    } else {
      DigitsOfDecimal(n / 10);
      assert s[..|s| - 1] == DecimalString(n / 10);
      assert DigitValue(DigitChar(n % 10)) == n % 10;
    }
  }
}
