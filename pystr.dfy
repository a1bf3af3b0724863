/** The Python string operations the scraper relies on: str.split with an
    explicit separator, str.strip, str.rstrip, str.lower and int(). */
module PyStr {
  import opened Wrappers

  /** `c` repeated `n` times. */
  function Repeat(c: char, n: nat): (r: string)
    ensures |r| == n
    ensures forall k :: 0 <= k < n ==> r[k] == c
  {
    if n == 0 then "" else Repeat(c, n - 1) + [c]
  }

  /** The index of the first `c` in `s`, or |s| when there is none. */
  function IndexOf(s: string, c: char): (i: nat)
    ensures i <= |s|
    ensures c !in s[..i]
    ensures i < |s| ==> s[i] == c
    ensures i == |s| <==> c !in s
  {
    if |s| == 0 then 0
    else if s[0] == c then 0
    else
      assert s[1..][..IndexOf(s[1..], c)] == s[1..1 + IndexOf(s[1..], c)];
      assert s[..1 + IndexOf(s[1..], c)] == [s[0]] + s[1..][..IndexOf(s[1..], c)];
      1 + IndexOf(s[1..], c)
  }

  lemma IndexOfAt(s: string, c: char, i: nat)
    requires i < |s| && s[i] == c && c !in s[..i]
    ensures IndexOf(s, c) == i
  {
  }

  /** `c.join(parts)`. */
  function Join(parts: seq<string>, c: char): string
  {
    if |parts| == 0 then ""
    else if |parts| == 1 then parts[0]
    else parts[0] + [c] + Join(parts[1..], c)
  }

  /** `s.split(c)`: the pieces between the occurrences of `c`, empty pieces
      included, so there is always at least one. */
  function Split(s: string, c: char): (r: seq<string>)
    ensures |r| >= 1
    decreases |s|
  {
    if |s| == 0 then [""]
    else
      var rest := Split(s[1..], c);
      if s[0] == c then [""] + rest
      else [[s[0]] + rest[0]] + rest[1..]
  }

  /** No piece holds the separator, and joining the pieces with it gives the
      text back. */
  lemma {:induction false} SplitJoin(s: string, c: char)
    ensures forall k :: 0 <= k < |Split(s, c)| ==> c !in Split(s, c)[k]
    ensures Join(Split(s, c), c) == s
    decreases |s|
  {
    if |s| > 0 {
      SplitJoin(s[1..], c);
      var rest := Split(s[1..], c);
      var r := Split(s, c);
      if s[0] == c {
        assert r[1..] == rest;
        assert s == [c] + s[1..];
      } else {
        assert r[1..] == rest[1..];
        assert forall k :: 1 <= k < |r| ==> r[k] == rest[k];
        if |rest| > 1 {
          assert Join(rest, c) == rest[0] + [c] + Join(rest[1..], c);
        }
        assert s == [s[0]] + s[1..];
      }
    }
  }

  /** The first piece of a split is the text before the first separator. */
  lemma {:induction false} SplitHead(s: string, c: char)
    ensures Split(s, c)[0] == s[..IndexOf(s, c)]
    ensures c in s <==> |Split(s, c)| >= 2
    decreases |s|
  {
    if |s| > 0 && s[0] != c {
      SplitHead(s[1..], c);
      assert s[..1 + IndexOf(s[1..], c)] == [s[0]] + s[1..][..IndexOf(s[1..], c)];
      assert c in s <==> c in s[1..];
    }
  }

  /** The pieces after the first are the split of the text after the first
      separator. */
  lemma {:induction false} SplitTail(s: string, c: char)
    requires c in s
    ensures Split(s, c)[1..] == Split(s[IndexOf(s, c) + 1..], c)
    decreases |s|
  {
    if s[0] == c {
      assert ([""] + Split(s[1..], c))[1..] == Split(s[1..], c);
    } else {
      assert c in s[1..];
      SplitTail(s[1..], c);
      assert s[1 + IndexOf(s[1..], c) + 1..] == s[1..][IndexOf(s[1..], c) + 1..];
    }
  }

  /** `s.split(" ")[0]`: the text up to the first space. */
  function FirstWord(s: string): (r: string)
    ensures r <= s
    ensures ' ' !in r
    ensures |r| == |s| || s[|r|] == ' '
  {
    s[..IndexOf(s, ' ')]
  }

  /** FirstWord is the first piece of Python's split. */
  lemma FirstWordIsSplit(s: string)
    ensures FirstWord(s) == Split(s, ' ')[0]
  {
    SplitHead(s, ' ');
  }

  lemma FirstWordOfWord(s: string)
    requires ' ' !in s
    ensures FirstWord(s) == s
  {
  }

  /** The first word of a word followed by a space and more text. */
  lemma FirstWordBefore(w: string, rest: string)
    requires ' ' !in w
    ensures FirstWord(w + " " + rest) == w
  {
    var s := w + " " + rest;
    assert s[..|w|] == w;
    IndexOfAt(s, ' ', |w|);
  }

  /** `s.rstrip(c)`: every trailing `c` removed. */
  function RStrip(s: string, c: char): (r: string)
    ensures |r| <= |s|
    ensures |r| == 0 || r[|r| - 1] != c
    decreases |s|
  {
    if |s| > 0 && s[|s| - 1] == c then RStrip(s[..|s| - 1], c) else s
  }

  /** rstrip only cuts `c`s off the end. */
  lemma {:induction false} RStripShape(s: string, c: char)
    ensures RStrip(s, c) <= s
    ensures s == RStrip(s, c) + Repeat(c, |s| - |RStrip(s, c)|)
    decreases |s|
  {
    if |s| > 0 && s[|s| - 1] == c {
      var t := s[..|s| - 1];
      RStripShape(t, c);
      var r := RStrip(t, c);
      assert Repeat(c, |s| - |r|) == Repeat(c, |t| - |r|) + [c];
      assert s == t + [c];
    } else {
      assert s + Repeat(c, 0) == s;
    }
  }

  lemma RStripNoTrailing(s: string, c: char)
    requires |s| == 0 || s[|s| - 1] != c
    ensures RStrip(s, c) == s
  {
  }

  lemma RStripTrailing(s: string, c: char)
    requires |s| > 0 && s[|s| - 1] == c
    ensures |RStrip(s, c)| < |s|
  {
  }

  /** `s.lstrip(c)`: every leading `c` removed. */
  function LStrip(s: string, c: char): (r: string)
    ensures |r| <= |s|
    ensures |r| == 0 || r[0] != c
    decreases |s|
  {
    if |s| > 0 && s[0] == c then LStrip(s[1..], c) else s
  }

  /** lstrip only cuts `c`s off the front. */
  lemma {:induction false} LStripShape(s: string, c: char)
    ensures s == Repeat(c, |s| - |LStrip(s, c)|) + LStrip(s, c)
    decreases |s|
  {
    if |s| > 0 && s[0] == c {
      var t := s[1..];
      LStripShape(t, c);
      var r := LStrip(t, c);
      assert Repeat(c, |s| - |r|) == [c] + Repeat(c, |t| - |r|);
      assert s == [c] + t;
    } else {
      assert Repeat(c, 0) + s == s;
    }
  }

  /** `s.strip(c)`: every `c` at either end removed. */
  function Strip(s: string, c: char): (r: string)
    ensures |r| <= |s|
    ensures |r| == 0 || (r[0] != c && r[|r| - 1] != c)
  {
    var l := LStrip(s, c);
    var r := RStrip(l, c);
    RStripShape(l, c);
    assert |r| > 0 ==> r[0] == l[0];
    r
  }

  /** Only the ends are touched: the text is some `c`s, the stripped text and
      some more `c`s. */
  lemma StripShape(s: string, c: char)
    ensures exists lead: nat ::
      (lead + |Strip(s, c)| <= |s| && s == Repeat(c, lead) + Strip(s, c) + Repeat(c, |s| - lead - |Strip(s, c)|))
  {
    var l := LStrip(s, c);
    var r := RStrip(l, c);
    LStripShape(s, c);
    RStripShape(l, c);
    assert Strip(s, c) == r;
    var lead := |s| - |l|;
    var tail := Repeat(c, |l| - |r|);
    assert s == Repeat(c, lead) + l;
    assert l == r + tail;
    assert |s| - lead - |r| == |l| - |r|;
    assert s == Repeat(c, lead) + r + Repeat(c, |s| - lead - |r|);
  }

  /** Python's str.lower on the letters the site's place names use: A-Z and
      Å, Ä, Ö, É. Every other character is left as it is. */
  function LowerChar(ch: char): (r: char)
    ensures r == ' ' <==> ch == ' '
    ensures r == 's' <==> ch == 's' || ch == 'S'
    ensures 'A' <= ch <= 'Z' ==> r as int == ch as int + 32
    ensures !('A' <= ch <= 'Z') && ch !in "ÅÄÖÉ" ==> r == ch
  {
    if 'A' <= ch <= 'Z' then (ch as int + 32) as char
    else if ch == 'Å' then 'å'
    else if ch == 'Ä' then 'ä'
    else if ch == 'Ö' then 'ö'
    else if ch == 'É' then 'é'
    else ch
  }

  lemma LowerCharIdempotent(ch: char)
    ensures LowerChar(LowerChar(ch)) == LowerChar(ch)
  {
  }

  /** `s.lower()`, character by character. */
  function Lower(s: string): (r: string)
    ensures |r| == |s|
    ensures IsLower(r)
  {
    seq(|s|, k requires 0 <= k < |s| => LowerChar(s[k]))
  }

  /** A string that lower() leaves unchanged. */
  predicate IsLower(s: string) {
    forall k :: 0 <= k < |s| ==> LowerChar(s[k]) == s[k]
  }

  lemma {:induction false} LowerIsLower(s: string)
    ensures IsLower(Lower(s))
    ensures Lower(Lower(s)) == Lower(s)
  {
    forall k | 0 <= k < |s| ensures LowerChar(Lower(s)[k]) == Lower(s)[k] {
      LowerCharIdempotent(s[k]);
    }
  }

  lemma LowerOfLower(s: string)
    requires IsLower(s)
    ensures Lower(s) == s
  {
  }

  lemma {:induction false} LowerKeepsSpaces(s: string)
    ensures ' ' in Lower(s) <==> ' ' in s
  {
    if ' ' in s {
      var k :| 0 <= k < |s| && s[k] == ' ';
      assert Lower(s)[k] == ' ';
    }
    if ' ' in Lower(s) {
      var k :| 0 <= k < |s| && Lower(s)[k] == ' ';
      assert s[k] == ' ';
    }
  }

  lemma LowerConcat(a: string, b: string)
    ensures Lower(a + b) == Lower(a) + Lower(b)
  {
  }

  predicate IsDigit(ch: char) {
    '0' <= ch <= '9'
  }

  predicate IsDigits(s: string) {
    |s| > 0 && forall k :: 0 <= k < |s| ==> IsDigit(s[k])
  }

  /** The number a run of decimal digits denotes (leading zeros allowed). */
  function DigitsValue(s: string): nat
    requires forall k :: 0 <= k < |s| ==> IsDigit(s[k])
    decreases |s|
  {
    if |s| == 0 then 0
    else
      assert IsDigit(s[|s| - 1]);
      DigitsValue(s[..|s| - 1]) * 10 + (s[|s| - 1] as int - '0' as int)
  }

  /** Python's int() on the text of a count: an optional sign and at least one
      ASCII digit; anything else raises ValueError. */
  function ParseInt(s: string): (r: Result<int>)
    ensures r.Err? ==> r.error == ValueError
    ensures IsDigits(s) ==> r == Ok(DigitsValue(s))
    ensures |s| > 0 && s[0] == '-' && IsDigits(s[1..]) ==> r == Ok(-(DigitsValue(s[1..]) as int))
    ensures r.Ok? <==> IsDigits(s) || (|s| > 0 && s[0] in "+-" && IsDigits(s[1..]))
  {
    if IsDigits(s) then Ok(DigitsValue(s))
    else if |s| > 0 && s[0] == '+' && IsDigits(s[1..]) then Ok(DigitsValue(s[1..]))
    else if |s| > 0 && s[0] == '-' && IsDigits(s[1..]) then Ok(-(DigitsValue(s[1..]) as int))
    else Err(ValueError)
  }

  /** `str(n)` for a natural number: its decimal digits, no leading zero. */
  function Show(n: nat): (r: string)
    ensures IsDigits(r)
    ensures |r| > 1 ==> r[0] != '0'
    decreases n
  {
    var d := ['0' + ((n % 10) as char)];
    if n < 10 then d else Show(n / 10) + d
  }

  /** int(str(n)) == n and int("-" + str(n)) == -n. */
  lemma {:induction false} ParseShow(n: nat)
    ensures ParseInt(Show(n)) == Ok(n)
    ensures ParseInt("-" + Show(n)) == Ok(-(n as int))
  {
    ShowValue(n);
    assert ("-" + Show(n))[1..] == Show(n);
  }

  lemma {:induction false} ShowValue(n: nat)
    ensures DigitsValue(Show(n)) == n
    decreases n
  {
    if n >= 10 {
      ShowValue(n / 10);
      var s := Show(n);
      assert s[..|s| - 1] == Show(n / 10);
    }
  }
}
