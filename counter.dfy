/** The screenshot counter: the FTP listing is scanned for `Dashboard_`
    files, the largest number found is taken (0 when there is none or when
    anything fails), and the next two file names follow it. */
module Counter {
  import opened Wrappers

  // ---------------------------------------------------------------------
  // Text helpers with Python's string semantics
  // ---------------------------------------------------------------------

  /** The characters Python's `str.split()` treats as whitespace. */
  predicate IsSpace(c: char) {
    || c == ' ' || '\t' <= c <= '\r' || '\U{1C}' <= c <= '\U{1F}'
    || c == '\U{85}' || c == '\U{A0}' || c == '\U{1680}' || '\U{2000}' <= c <= '\U{200A}'
    || c == '\U{2028}' || c == '\U{2029}' || c == '\U{202F}' || c == '\U{205F}' || c == '\U{3000}'
  }

  /** `sub in s` for strings: `sub` occurs as a contiguous piece of `s`. */
  predicate Contains(s: string, sub: string)
    decreases |s|
  {
    (|sub| <= |s| && s[..|sub|] == sub) || (s != [] && Contains(s[1..], sub))
  }

  /** `s` without its trailing whitespace. */
  function TrimEnd(s: string): (r: string)
    ensures r <= s
    ensures r == [] || !IsSpace(r[|r| - 1])
    ensures forall i :: |r| <= i < |s| ==> IsSpace(s[i])
  {
    if s != [] && IsSpace(s[|s| - 1]) then TrimEnd(s[..|s| - 1]) else s
  }

  /** The longest suffix of `s` free of whitespace. */
  function TrailingWord(s: string): (r: string)
    ensures |r| <= |s| && r == s[|s| - |r|..]
    ensures forall i :: 0 <= i < |r| ==> !IsSpace(r[i])
    ensures |r| < |s| ==> IsSpace(s[|s| - |r| - 1])
  {
    if s != [] && !IsSpace(s[|s| - 1]) then TrailingWord(s[..|s| - 1]) + [s[|s| - 1]] else []
  }

  /** `line.split()[-1]`: the last whitespace-separated word of a line. It
      ends where the trailing whitespace starts, is preceded by whitespace or
      the start of the line, and is empty only for an all-whitespace line
      (where Python would raise instead). */
  function LastWord(line: string): (r: string)
    ensures var e := |TrimEnd(line)|;
            && |r| <= e && r == line[e - |r|..e]
            && (forall i :: 0 <= i < |r| ==> !IsSpace(r[i]))
            && (forall i :: e <= i < |line| ==> IsSpace(line[i]))
            && (|r| < e ==> IsSpace(line[e - |r| - 1]))
            && (r == [] <==> forall i :: 0 <= i < |line| ==> IsSpace(line[i]))
  {
    var t := TrimEnd(line);
    assert t == line[..|t|];
    TrailingWord(t)
  }

  /** `s.split(c)[0]`: everything before the first `c`. */
  function Before(s: string, c: char): (r: string)
    ensures r <= s && c !in r
    ensures |r| < |s| ==> s[|r|] == c
  {
    if s == [] || s[0] == c then [] else [s[0]] + Before(s[1..], c)
  }

  /** Everything after the first `c`, for a string that contains one. */
  function After(s: string, c: char): (r: string)
    requires c in s
    ensures |r| < |s|
  {
    if s[0] == c then s[1..] else After(s[1..], c)
  }

  // ---------------------------------------------------------------------
  // Decimal numbers
  // ---------------------------------------------------------------------

  predicate IsDigit(c: char) { '0' <= c <= '9' }

  predicate AllDigits(s: string) { forall i :: 0 <= i < |s| ==> IsDigit(s[i]) }

  /** The value of a string of decimal digits, most significant first. */
  function DigitsValue(s: string): nat
    requires AllDigits(s)
  {
    if s == [] then 0 else DigitsValue(s[..|s| - 1]) * 10 + (s[|s| - 1] - '0') as int
  }

  /** `str(n)` for a natural number: its decimal digits, no leading zeros. */
  function Digits(n: nat): (r: string)
    ensures |r| >= 1 && AllDigits(r)
  {
    if n < 10 then [('0' as int + n) as char] else Digits(n / 10) + [('0' as int + n % 10) as char]
  }

  /** Python's `int(s)` on text without whitespace or underscores, which is
      all `NumberOf` passes it: an optional sign and at least one decimal
      digit; anything else raises. */
  function ParseInt(s: string): (r: Option<int>)
    ensures r.Some? <==> s != [] && forall i :: 0 <= i < |s| ==>
              IsDigit(s[i]) || (i == 0 && |s| > 1 && (s[0] == '+' || s[0] == '-'))
    ensures r.Some? && r.value < 0 ==> s[0] == '-'
  {
    if |s| >= 1 && (s[0] == '+' || s[0] == '-') then
      var body := s[1..];
      if body != [] && AllDigits(body) then
        var v: int := DigitsValue(body);
        Some(if s[0] == '-' then -v else v)
      else None
    else if s != [] && AllDigits(s) then Some(DigitsValue(s))
    else None
  }

  /** `s` left-padded with zeros to `width` characters. */
  function ZeroPad(s: string, width: nat): (r: string)
    ensures |r| == if |s| < width then width else |s|
  {
    if |s| < width then Zeros(width - |s|) + s else s
  }

  /** `k` zero digits. */
  function Zeros(k: nat): (r: string)
    ensures |r| == k
  {
    seq(k, _ => '0')
  }

  /** Python's `f"{n:05d}"`: zero padding to five characters, after the sign. */
  function Pad5(n: int): string {
    if n >= 0 then ZeroPad(Digits(n), 5) else "-" + ZeroPad(Digits(-n), 4)
  }

  // ---------------------------------------------------------------------
  // The counter
  // ---------------------------------------------------------------------

  const Prefix: string := "Dashboard_"

  /** The names taken from the listing: the last word of every line that
      contains `Dashboard_`. */
  function Names(lines: seq<string>): (r: seq<string>)
    ensures |r| <= |lines|
  {
    if lines == [] then []
    else (if Contains(lines[0], Prefix) then [LastWord(lines[0])] else []) + Names(lines[1..])
  }

  /** `int(f.split('_')[1].split('.')[0])`: the number between the first
      underscore and the next underscore or dot. */
  function NumberOf(f: string): Option<int>
    requires '_' in f
  {
    ParseInt(Before(Before(After(f, '_'), '_'), '.'))
  }

  /** The numbers of all names that contain an underscore, or `None` when
      one of them does not parse (the comprehension raises). */
  function ParseAll(names: seq<string>): (r: Option<seq<int>>)
    ensures r.Some? ==> forall f :: f in names && '_' in f ==>
                          NumberOf(f).Some? && NumberOf(f).value in r.value
    ensures r.Some? ==> forall x :: x in r.value ==>
                          exists f :: f in names && '_' in f && NumberOf(f) == Some(x)
    ensures r.None? <==> exists f :: f in names && '_' in f && NumberOf(f).None?
  {
    if names == [] then Some([])
    else
      var rest := ParseAll(names[1..]);
      if '_' !in names[0] then rest
      else match NumberOf(names[0])
        case None => None
        case Some(v) => if rest.None? then None else Some([v] + rest.value)
  }

  /** The largest element of a non-empty list. */
  function Max(nums: seq<int>): (m: int)
    requires nums != []
    ensures m in nums && forall x :: x in nums ==> x <= m
  {
    if |nums| == 1 then nums[0]
    else
      assert nums == [nums[0]] + nums[1..];
      var m := Max(nums[1..]);
      if nums[0] >= m then nums[0] else m
  }

  /** `last_num`: the largest number in the listing, or 0 when the listing
      could not be fetched (`None`), has no numbered names, or holds a name
      that does not parse. */
  function LastNumber(listing: Option<seq<string>>): int {
    if listing.None? then 0
    else match ParseAll(Names(listing.value))
      case None => 0
      case Some(nums) => if nums == [] then 0 else Max(nums)
  }

  /** The file name for number `n`. */
  function FileName(n: int): string {
    Prefix + Pad5(n) + ".png"
  }

  /** The names of the next two screenshots. */
  function NextFileNames(listing: Option<seq<string>>): (string, string) {
    var last := LastNumber(listing);
    (FileName(last + 1), FileName(last + 2))
  }

  // ---------------------------------------------------------------------
  // Properties
  // ---------------------------------------------------------------------

  /** Reading back the digits of `n` gives `n`. */
  lemma {:induction false} DigitsRoundTrip(n: nat)
    ensures DigitsValue(Digits(n)) == n
  {
    if n >= 10 {
      DigitsRoundTrip(n / 10);
      var d := Digits(n);
      assert d[..|d| - 1] == Digits(n / 10);
    }
  }

  /** A string of zeros reads as 0. */
  lemma {:induction false} ZerosValue(k: nat)
    ensures AllDigits(Zeros(k)) && DigitsValue(Zeros(k)) == 0
  {
    if k > 0 {
      ZerosValue(k - 1);
      assert Zeros(k)[..k - 1] == Zeros(k - 1);
    }
  }

  /** Leading zeros do not change the value. */
  lemma {:induction false} LeadingZeros(k: nat, s: string)
    requires AllDigits(s)
    ensures AllDigits(Zeros(k) + s)
    ensures DigitsValue(Zeros(k) + s) == DigitsValue(s)
  {
    var z := Zeros(k);
    ZerosValue(k);
    if s == [] {
      assert z + s == z;
    } else {
      LeadingZeros(k, s[..|s| - 1]);
      assert (z + s)[..|z + s| - 1] == z + s[..|s| - 1];
    }
  }

  /** An unsigned digit string parses to its value. */
  lemma ParseUnsigned(s: string)
    requires s != [] && AllDigits(s)
    ensures ParseInt(s) == Some(DigitsValue(s))
  {
    assert IsDigit(s[0]);
  }

  /** A plus sign before a digit string parses to the value itself. */
  lemma ParsePositive(s: string)
    requires s != [] && AllDigits(s)
    ensures ParseInt("+" + s) == Some(DigitsValue(s))
  {
    assert ("+" + s)[0] == '+' && ("+" + s)[1..] == s;
  }

  /** A minus sign before a digit string parses to the negated value. */
  lemma ParseNegative(s: string)
    requires s != [] && AllDigits(s)
    ensures ParseInt("-" + s) == Some(-(DigitsValue(s) as int))
  {
    assert ("-" + s)[0] == '-' && ("-" + s)[1..] == s;
  }

  /** `ZeroPad(Digits(m), w)` is a digit string with the value `m`. */
  lemma PaddedDigits(m: nat, w: nat)
    ensures var p := ZeroPad(Digits(m), w);
            p != [] && AllDigits(p) && DigitsValue(p) == m
  {
    var d := Digits(m);
    DigitsRoundTrip(m);
    if |d| < w {
      LeadingZeros(w - |d|, d);
    }
  }

  /** `int(f"{n:05d}")` gives back `n`, for every integer. */
  lemma Pad5RoundTrip(n: int)
    ensures ParseInt(Pad5(n)) == Some(n)
  {
    if n >= 0 {
      PaddedDigits(n, 5);
      ParseUnsigned(ZeroPad(Digits(n), 5));
    } else {
      NegativePadRoundTrip(n);
    }
  }

  /** The negative case: the sign, then four zero-padded digits. */
  lemma NegativePadRoundTrip(n: int)
    requires n < 0
    ensures ParseInt(Pad5(n)) == Some(n)
  {
    var p := ZeroPad(Digits(-n), 4);
    assert Pad5(n) == "-" + p;
    PaddedDigits(-n, 4);
    ParseNegative(p);
  }

  /** Below 100000 the padded number is exactly five digits. */
  lemma {:induction false} Pad5Width(n: int)
    requires 0 <= n < 100000
    ensures |Pad5(n)| == 5 && AllDigits(Pad5(n))
  {
    DigitsLength(n, 5);
    var d := Digits(n);
    LeadingZeros(5 - |d|, d);
  }

  /** 10 to the power `k`. */
  function Pow10(k: nat): nat {
    if k == 0 then 1 else 10 * Pow10(k - 1)
  }

  /** A number below 10^k has at most k digits. */
  lemma {:induction false} DigitsLength(n: nat, k: nat)
    requires 1 <= k && n < Pow10(k)
    ensures |Digits(n)| <= k
  {
    if n >= 10 {
      DigitsLength(n / 10, k - 1);
    }
  }

  /** Splitting at the first `c` skips exactly the text before it. */
  lemma {:induction false} AfterFirst(a: string, c: char, b: string)
    requires c !in a
    ensures c in a + [c] + b && After(a + [c] + b, c) == b
  {
    if a != [] {
      AfterFirst(a[1..], c, b);
      assert (a + [c] + b)[1..] == a[1..] + [c] + b;
    }
  }

  /** Text before the first `c`: the part before `c`, or everything when
      there is none. */
  lemma {:induction false} BeforeFirst(a: string, c: char, b: string)
    requires c !in a
    ensures Before(a + b, c) == if b != [] && b[0] == c then a else a + Before(b, c)
  {
    if a != [] {
      assert a[0] in a;
      assert (a + b)[0] == a[0] && (a + b)[1..] == a[1..] + b;
      BeforeFirst(a[1..], c, b);
      assert [a[0]] + a[1..] == a;
    } else {
      assert a + b == b;
    }
  }

  /** A string free of whitespace is its own last word. */
  lemma WordIsLastWord(s: string)
    requires s != [] && forall i :: 0 <= i < |s| ==> !IsSpace(s[i])
    ensures LastWord(s) == s
  {
  }

  /** The characters of a padded number: digits and at most a minus sign. */
  lemma Pad5Chars(n: int)
    ensures forall i :: 0 <= i < |Pad5(n)| ==> IsDigit(Pad5(n)[i]) || Pad5(n)[i] == '-'
  {
  }

  /** A generated file name is found by the listing scan, has no whitespace,
      and its number reads back as the number it was made from. */
  lemma FileNameRoundTrip(n: int)
    ensures Contains(FileName(n), Prefix)
    ensures LastWord(FileName(n)) == FileName(n)
    ensures '_' in FileName(n) && NumberOf(FileName(n)) == Some(n)
  {
    FileNameIsListed(n);
    FileNameNumber(n);
  }

  /** A name `Dashboard_<p>.png` with a whitespace-free `p` is picked up by
      the listing scan as a word of its own. */
  lemma NameIsListed(p: string)
    requires forall i :: 0 <= i < |p| ==> !IsSpace(p[i])
    ensures var f := Prefix + p + ".png";
            Contains(f, Prefix) && LastWord(f) == f
  {
    var f := Prefix + p + ".png";
    assert f[..|Prefix|] == Prefix;
    forall i | 0 <= i < |f| ensures !IsSpace(f[i]) {
      if |Prefix| <= i < |Prefix| + |p| { assert f[i] == p[i - |Prefix|]; }
    }
    WordIsLastWord(f);
  }

  /** The number of `Dashboard_<p>.png` is `int(p)` when `p` holds no
      underscore and no dot. */
  lemma NameNumber(p: string)
    requires '_' !in p && '.' !in p
    ensures var f := Prefix + p + ".png";
            '_' in f && NumberOf(f) == ParseInt(p)
  {
    var tail := p + ".png";
    assert Prefix + p + ".png" == "Dashboard" + ['_'] + tail;
    AfterFirst("Dashboard", '_', tail);
    assert '_' !in tail;
    BeforeFirst(tail, '_', []);
    assert tail + [] == tail;
    BeforeFirst(p, '.', ".png");
  }

  /** A generated file name contains `Dashboard_` and is a single word. */
  lemma FileNameIsListed(n: int)
    ensures Contains(FileName(n), Prefix)
    ensures LastWord(FileName(n)) == FileName(n)
  {
    Pad5Chars(n);
    NameIsListed(Pad5(n));
  }

  /** The number of a generated file name reads back unchanged. */
  lemma FileNameNumber(n: int)
    ensures '_' in FileName(n) && NumberOf(FileName(n)) == Some(n)
  {
    Pad5Chars(n);
    NameNumber(Pad5(n));
    Pad5RoundTrip(n);
  }

  /** Every listed line that contains `Dashboard_` contributes its last word. */
  lemma {:induction false} NamesComplete(lines: seq<string>, line: string)
    requires line in lines && Contains(line, Prefix)
    ensures LastWord(line) in Names(lines)
  {
    if lines[0] != line {
      NamesComplete(lines[1..], line);
    }
  }

  /** Every name comes from a listed line that contains `Dashboard_`. */
  lemma {:induction false} NamesSound(lines: seq<string>, w: string)
    requires w in Names(lines)
    ensures exists l :: l in lines && Contains(l, Prefix) && LastWord(l) == w
  {
    if Contains(lines[0], Prefix) && w == LastWord(lines[0]) {
      assert lines[0] in lines;
    } else {
      NamesSound(lines[1..], w);
      var l :| l in lines[1..] && Contains(l, Prefix) && LastWord(l) == w;
      assert l in lines;
    }
  }

  lemma LastNumberIsMaxOrZero(lines: seq<string>)
    requires ParseAll(Names(lines)).Some?
    ensures var nums := ParseAll(Names(lines)).value;
            && (nums == [] ==> LastNumber(Some(lines)) == 0)
            && (nums != [] ==> LastNumber(Some(lines)) in nums)
            && (forall x :: x in nums ==> x <= LastNumber(Some(lines)))
  {
  }

  /** When the listing parses, both new names carry numbers larger than
      every existing one, so neither is already on the device. */
  lemma NewNamesAreFresh(lines: seq<string>)
    requires ParseAll(Names(lines)).Some?
    ensures NumberOf(NextFileNames(Some(lines)).0) == Some(LastNumber(Some(lines)) + 1)
    ensures NumberOf(NextFileNames(Some(lines)).1) == Some(LastNumber(Some(lines)) + 2)
    ensures NextFileNames(Some(lines)).0 !in Names(lines)
    ensures NextFileNames(Some(lines)).1 !in Names(lines)
  {
    var last := LastNumber(Some(lines));
    LastNumberIsMaxOrZero(lines);
    assert NextFileNames(Some(lines)) == (FileName(last + 1), FileName(last + 2));
    assert forall x :: x in ParseAll(Names(lines)).value ==> x <= last;
    FreshNumberFreshName(Names(lines), last, last + 1);
    FreshNumberFreshName(Names(lines), last, last + 2);
  }

  /** A name whose number exceeds every parsed number is not in the list. */
  lemma FreshNumberFreshName(names: seq<string>, last: int, k: int)
    requires ParseAll(names).Some?
    requires forall x :: x in ParseAll(names).value ==> x <= last
    requires last < k
    ensures NumberOf(FileName(k)) == Some(k) && FileName(k) !in names
  {
    FileNameNumber(k);
  }

  /** Whatever fails — the listing itself, or any numbered name — the
      counter starts again at 1 and 2. */
  lemma FailureRestartsAtOne(listing: Option<seq<string>>)
    requires listing.None? || ParseAll(Names(listing.value)).None?
    ensures NextFileNames(listing) == (FileName(1), FileName(2))
  {
  }

  /** A listed name whose text after the underscore starts with neither a
      sign nor a digit carries no number. */
  lemma UnnumberedName(x: string)
    requires x != [] && !IsDigit(x[0]) && x[0] != '+' && x[0] != '-'
    requires '_' !in x && '.' !in x && forall i :: 0 <= i < |x| ==> !IsSpace(x[i])
    ensures var f := Prefix + x + ".png";
            Contains(f, Prefix) && LastWord(f) == f && '_' in f && NumberOf(f).None?
  {
    NameIsListed(x);
    NameNumber(x);
    assert !AllDigits(x);
  }

  /** Restarting from 0 can reuse a name already on the device: with
      `Dashboard_00001.png` and an unnumbered name such as `Dashboard_x.png`
      listed, the next name is `Dashboard_00001.png` again. */
  lemma BadNameReusesExistingName(x: string)
    requires x != [] && !IsDigit(x[0]) && x[0] != '+' && x[0] != '-'
    requires '_' !in x && '.' !in x && forall i :: 0 <= i < |x| ==> !IsSpace(x[i])
    ensures var lines := [FileName(1), Prefix + x + ".png"];
            NextFileNames(Some(lines)).0 == FileName(1) && FileName(1) in Names(lines)
  {
    var bad := Prefix + x + ".png";
    var lines := [FileName(1), bad];
    FileNameIsListed(1);
    UnnumberedName(x);
    NamesComplete(lines, FileName(1));
    NamesComplete(lines, bad);
    FailureRestartsAtOne(Some(lines));
  }
}
