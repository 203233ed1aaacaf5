/** The string operations the Python source relies on (`str.strip`, `str.rstrip`,
    `str.lower`, `str.split`, `" ".join`, decimal formatting of an index), over
    `seq<char>`. Whitespace is ASCII whitespace and case folding is ASCII only. */
module Text {

  /** The characters `str.strip()` and the regex class `\s` treat as whitespace,
      within ASCII: space, tab, line feed, carriage return, vertical tab, form
      feed, and the four separators 0x1C to 0x1F. */
  predicate IsSpace(c: char) {
    c == ' ' || c == '\t' || c == '\n' || c == '\r' || c == '\U{000B}' || c == '\U{000C}'
    || c == '\U{001C}' || c == '\U{001D}' || c == '\U{001E}' || c == '\U{001F}'
  }

  /** `s.lstrip()`: the suffix of `s` left after dropping leading whitespace. */
  function LStrip(s: string): (r: string)
    ensures |r| <= |s| && r == s[|s| - |r|..]
    ensures r == [] || !IsSpace(r[0])
    ensures forall i :: 0 <= i < |s| - |r| ==> IsSpace(s[i])
  {
    if s != [] && IsSpace(s[0]) then
      var t := LStrip(s[1..]);
      assert forall i :: 1 <= i < |s| - |t| ==> s[i] == s[1..][i - 1];
      t
    else s
  }

  /** `s.rstrip()`: the prefix of `s` left after dropping trailing whitespace. */
  function RStrip(s: string): (r: string)
    ensures |r| <= |s| && r == s[..|r|]
    ensures r == [] || !IsSpace(r[|r| - 1])
    ensures forall i :: |r| <= i < |s| ==> IsSpace(s[i])
  {
    if s != [] && IsSpace(s[|s| - 1]) then RStrip(s[..|s| - 1]) else s
  }

  /** A string with no leading and no trailing whitespace. */
  predicate Trimmed(s: string) {
    s == [] || (!IsSpace(s[0]) && !IsSpace(s[|s| - 1]))
  }

  /** The number of leading whitespace characters `s.strip()` removes. */
  function StripStart(s: string): (k: nat)
    ensures k <= |s|
  {
    |RStrip(s)| - |LStrip(RStrip(s))|
  }

  /** `s.strip()`: the infix of `s` left after dropping whitespace at both ends;
      everything dropped is whitespace. */
  function Strip(s: string): (r: string)
    ensures Trimmed(r)
    ensures StripStart(s) + |r| <= |s| && r == s[StripStart(s)..StripStart(s) + |r|]
    ensures forall i :: 0 <= i < StripStart(s) ==> IsSpace(s[i])
    ensures forall i :: StripStart(s) + |r| <= i < |s| ==> IsSpace(s[i])
  {
    StripDropsSpaces(s);
    LStrip(RStrip(s))
  }

  /** The two ends `LStrip(RStrip(s))` drops are whitespace. */
  lemma StripDropsSpaces(s: string)
    ensures var t := RStrip(s);
      && (forall i :: 0 <= i < |t| - |LStrip(t)| ==> IsSpace(s[i]))
      && (forall i :: |t| <= i < |s| ==> IsSpace(s[i]))
  {
    var t := RStrip(s);
    assert forall i :: 0 <= i < |t| ==> s[i] == t[i];
  }

  /** `s.strip()` is empty exactly when `s` is all whitespace. */
  lemma StripEmpty(s: string)
    ensures Strip(s) == [] <==> forall i :: 0 <= i < |s| ==> IsSpace(s[i])
  {
    var r := RStrip(s);
    if Strip(s) == [] {
      forall i | 0 <= i < |s| ensures IsSpace(s[i]) {
        if i < |r| {
          assert s[i] == r[i];
        }
      }
    }
  }

  /** `Strip` leaves a string that already starts and ends with non-space unchanged. */
  lemma StripTrimmed(s: string)
    requires s != [] && !IsSpace(s[0]) && !IsSpace(s[|s| - 1])
    ensures Strip(s) == s
  {
    assert RStrip(s) == s;
  }

  function LowerChar(c: char): char {
    if 'A' <= c <= 'Z' then (c as int - 'A' as int + 'a' as int) as char else c
  }

  predicate IsLetter(c: char) {
    'a' <= c <= 'z' || 'A' <= c <= 'Z'
  }

  function UpperChar(c: char): char {
    if 'a' <= c <= 'z' then (c as int - 'a' as int + 'A' as int) as char else c
  }

  /** `s.title()` on ASCII letters: a letter that begins a word is upper-cased
      and every other letter lower-cased. */
  function Title(s: string): (r: string)
    ensures |r| == |s|
  {
    seq(|s|, i requires 0 <= i < |s| => if i == 0 || !IsLetter(s[i - 1]) then UpperChar(s[i]) else LowerChar(s[i]))
  }

  /** `s.lower()` on ASCII letters. */
  function Lower(s: string): (r: string)
    ensures |r| == |s|
    ensures forall i :: 0 <= i < |s| ==> r[i] == LowerChar(s[i])
  {
    seq(|s|, i requires 0 <= i < |s| => LowerChar(s[i]))
  }

  /** `re.match(r"^\s*" + keyword, s, re.IGNORECASE)` for a keyword of letters. */
  predicate StartsWithKeyword(s: string, keyword: string) {
    var t := LStrip(s);
    |keyword| <= |t| && Lower(t[..|keyword|]) == Lower(keyword)
  }

  /** A keyword match fixes the first character after the leading whitespace,
      up to case. */
  lemma KeywordInitial(s: string, keyword: string)
    requires keyword != ""
    ensures StartsWithKeyword(s, keyword) ==>
      LStrip(s) != "" && LowerChar(LStrip(s)[0]) == LowerChar(keyword[0])
  {
    if StartsWithKeyword(s, keyword) {
      var t := LStrip(s);
      assert Lower(t[..|keyword|])[0] == LowerChar(t[0]);
    }
  }

  /** `sep.join(parts)`. */
  function Join(parts: seq<string>, sep: string): string {
    if |parts| == 0 then ""
    else if |parts| == 1 then parts[0]
    else parts[0] + sep + Join(parts[1..], sep)
  }

  lemma {:induction false} JoinAppend(parts: seq<string>, x: string, sep: string)
    requires |parts| >= 1
    ensures Join(parts + [x], sep) == Join(parts, sep) + sep + x
  {
    if |parts| > 1 {
      JoinAppend(parts[1..], x, sep);
      assert (parts + [x])[1..] == parts[1..] + [x];
    }
  }

  lemma {:induction false} JoinConcat(a: seq<string>, b: seq<string>, sep: string)
    requires |a| >= 1 && |b| >= 1
    ensures Join(a + b, sep) == Join(a, sep) + sep + Join(b, sep)
  {
    if |a| == 1 {
      assert (a + b)[1..] == b;
    } else {
      JoinConcat(a[1..], b, sep);
      assert (a + b)[1..] == a[1..] + b;
    }
  }

  /** `s.split(sep)` for a one-character separator: at least one piece, none
      containing the separator. */
  function Split(s: string, sep: char): (r: seq<string>)
    ensures |r| >= 1
    ensures forall i :: 0 <= i < |r| ==> sep !in r[i]
  {
    if s == [] then [""]
    else
      var rest := Split(s[1..], sep);
      if s[0] == sep then [""] + rest
      else [[s[0]] + rest[0]] + rest[1..]
  }

  /** Joining the pieces of a split with the separator gives back the input. */
  lemma {:induction false} SplitJoin(s: string, sep: char)
    ensures Join(Split(s, sep), [sep]) == s
  {
    if s != [] {
      var rest := Split(s[1..], sep);
      SplitJoin(s[1..], sep);
      if s[0] == sep {
        assert ([""] + rest)[1..] == rest;
      } else if |rest| > 1 {
        assert ([[s[0]] + rest[0]] + rest[1..])[1..] == rest[1..];
      }
    }
  }

  function DigitChar(d: nat): char
    requires d < 10
  {
    ('0' as int + d) as char
  }

  /** `str(n)` for a natural number. */
  function NatToString(n: nat): (r: string)
    ensures |r| >= 1
    ensures n >= 10 ==> |r| >= 2
    ensures forall i :: 0 <= i < |r| ==> '0' <= r[i] <= '9'
  {
    if n < 10 then [DigitChar(n)] else NatToString(n / 10) + [DigitChar(n % 10)]
  }

  /** Distinct numbers print differently. */
  lemma {:induction false} NatToStringInjective(m: nat, n: nat)
    requires NatToString(m) == NatToString(n)
    ensures m == n
  {
    if m >= 10 && n >= 10 {
      var sm, sn := NatToString(m), NatToString(n);
      assert sm[|sm| - 1] == sn[|sn| - 1];
      assert sm[..|sm| - 1] == NatToString(m / 10);
      assert sn[..|sn| - 1] == NatToString(n / 10);
      NatToStringInjective(m / 10, n / 10);
    }
  }

  /** A `//` starts at index `i` of `s`. */
  predicate SlashPairAt(s: string, i: int) {
    0 <= i < |s| - 1 && s[i] == '/' && s[i + 1] == '/'
  }

  /** No `//` occurs in `s`. */
  predicate NoDoubleSlash(s: string) {
    forall i :: 0 <= i < |s| ==> !SlashPairAt(s, i)
  }

  /** `re.sub(r"//.*$", "", line)` on one line: everything from the first `//`
      on is dropped, wherever it stands (inside a quoted string too). */
  function StripComment(line: string): (r: string)
    ensures |r| <= |line| && r == line[..|r|]
    ensures NoDoubleSlash(r)
    ensures |r| < |line| ==> |r| + 2 <= |line| && line[|r|] == '/' && line[|r| + 1] == '/'
    ensures |r| < |line| && r != [] ==> r[|r| - 1] != '/'
    ensures NoDoubleSlash(line) ==> r == line
  {
    if |line| < 2 then line
    else if line[0] == '/' && line[1] == '/' then
      assert SlashPairAt(line, 0);
      ""
    else
      var r := StripComment(line[1..]);
      SlashFreeCons(line[0], r);
      SlashFreeTail(line);
      [line[0]] + r
  }

  /** A character in front of a `//`-free string adds no `//` unless both are slashes. */
  lemma SlashFreeCons(c: char, s: string)
    requires NoDoubleSlash(s) && (s == [] || c != '/' || s[0] != '/')
    ensures NoDoubleSlash([c] + s)
  {
    var t := [c] + s;
    forall i | 0 <= i < |t| ensures !SlashPairAt(t, i) {
      if 0 < i < |t| - 1 {
        assert t[i] == s[i - 1] && t[i + 1] == s[i];
        assert !SlashPairAt(s, i - 1);
      }
    }
  }

  /** Dropping the first character keeps a string `//`-free. */
  lemma SlashFreeTail(s: string)
    requires s != []
    ensures NoDoubleSlash(s) ==> NoDoubleSlash(s[1..])
  {
    if NoDoubleSlash(s) {
      NoDoubleSlashInfix(s, 1, |s|);
      assert s[1..|s|] == s[1..];
    }
  }

  lemma NoDoubleSlashInfix(s: string, a: nat, b: nat)
    requires a <= b <= |s| && NoDoubleSlash(s)
    ensures NoDoubleSlash(s[a..b])
  {
    var t := s[a..b];
    forall i | 0 <= i < |t| ensures !SlashPairAt(t, i) {
      if 0 <= i < |t| - 1 {
        assert t[i] == s[a + i] && t[i + 1] == s[a + i + 1];
        assert !SlashPairAt(s, a + i);
      }
    }
  }

  /** A piece `r` of a `//`-free string, found at offset `a`, is `//`-free. */
  lemma NoDoubleSlashAt(s: string, a: nat, r: string)
    requires a + |r| <= |s| && r == s[a..a + |r|] && NoDoubleSlash(s)
    ensures NoDoubleSlash(r)
  {
    forall i | 0 <= i < |r| ensures !SlashPairAt(r, i) {
      if i < |r| - 1 {
        assert r[i] == s[a + i] && r[i + 1] == s[a + i + 1];
        assert !SlashPairAt(s, a + i);
      }
    }
  }

  lemma NoDoubleSlashPrefix(s: string, n: nat)
    requires n <= |s| && NoDoubleSlash(s)
    ensures NoDoubleSlash(s[..n])
  {
    var t := s[..n];
    forall i | 0 <= i < |t| ensures !SlashPairAt(t, i) {
      assert !SlashPairAt(s, i);
    }
  }

  /** Gluing two `//`-free strings with a space cannot create a `//`. */
  lemma NoDoubleSlashGlue(a: string, b: string)
    requires NoDoubleSlash(a) && NoDoubleSlash(b)
    ensures NoDoubleSlash(a + " " + b)
  {
    var s := a + " " + b;
    forall i | 0 <= i < |s| ensures !SlashPairAt(s, i) {
      if 0 <= i && i + 1 < |a| {
        assert s[i] == a[i] && s[i + 1] == a[i + 1];
        assert !SlashPairAt(a, i);
      } else if |a| < i < |s| - 1 {
        assert s[i] == b[i - |a| - 1] && s[i + 1] == b[i - |a|];
        assert !SlashPairAt(b, i - |a| - 1);
      }
    }
  }
}
