/** Models of the Go standard-library operations that the scheduled-backup
    code and the settings service use: `strings.Split`/`Join`, `HasPrefix`,
    `TrimPrefix`, `TrimSuffix`, `ReplaceAll`, `path.Join`, `path.Dir`,
    `strconv.Atoi` and the decimal formatting of `fmt.Sprintf("%v", n)`.
    Strings are sequences of characters; a Go rune is one `char`. */
module GoStd {

  datatype Option<+T> = None | Some(value: T)

  datatype Result<+T, +E> = Ok(value: T) | Err(error: E)

  predicate IsDigit(c: char) { '0' <= c <= '9' }

  predicate AllDigits(s: string) { forall i :: 0 <= i < |s| ==> IsDigit(s[i]) }

  /** `strings.HasPrefix` */
  predicate HasPrefix(s: string, prefix: string) {
    |prefix| <= |s| && s[..|prefix|] == prefix
  }

  /** `strings.HasSuffix` */
  predicate HasSuffix(s: string, suffix: string) {
    |suffix| <= |s| && s[|s| - |suffix|..] == suffix
  }

  /** `strings.TrimPrefix`: the prefix is removed once when present. */
  function TrimPrefix(s: string, prefix: string): (r: string)
    ensures HasPrefix(s, prefix) ==> prefix + r == s
    ensures !HasPrefix(s, prefix) ==> r == s
  {
    if HasPrefix(s, prefix) then s[|prefix|..] else s
  }

  /** `strings.TrimSuffix`: the suffix is removed once when present. */
  function TrimSuffix(s: string, suffix: string): (r: string)
    ensures HasSuffix(s, suffix) ==> r + suffix == s
    ensures !HasSuffix(s, suffix) ==> r == s
  {
    if HasSuffix(s, suffix) then s[..|s| - |suffix|] else s
  }

  lemma TrimSuffixOfAppended(s: string, suffix: string)
    ensures TrimSuffix(s + suffix, suffix) == s
  {
    assert (s + suffix)[|s + suffix| - |suffix|..] == suffix;
    assert (s + suffix)[..|s|] == s;
  }

  // ---------------------------------------------------------------------------
  // strings.Split / strings.Join with a one-character separator

  /** `strings.Split(s, string(sep))`: the pieces between separators, so that
      the empty string splits into one empty piece. */
  function Split(s: string, sep: char): (parts: seq<string>)
    ensures |parts| >= 1
    decreases |s|
  {
    if |s| == 0 then [""]
    else
      var rest := Split(s[1..], sep);
      if s[0] == sep then [""] + rest else [[s[0]] + rest[0]] + rest[1..]
  }

  /** `strings.Join(parts, string(sep))` */
  function Join(parts: seq<string>, sep: char): string
  {
    if |parts| == 0 then ""
    else if |parts| == 1 then parts[0]
    else parts[0] + [sep] + Join(parts[1..], sep)
  }

  /** Splitting and joining again gives back the original list, and no piece
      contains the separator. */
  lemma {:induction false} SplitJoin(s: string, sep: char)
    ensures Join(Split(s, sep), sep) == s
    ensures forall i :: 0 <= i < |Split(s, sep)| ==> sep !in Split(s, sep)[i]
    decreases |s|
  {
    if |s| > 0 {
      var rest := Split(s[1..], sep);
      SplitJoin(s[1..], sep);
      if s[0] == sep {
        assert Split(s, sep) == [""] + rest;
        assert ([""] + rest)[1..] == rest;
        assert s == [s[0]] + s[1..];
      } else {
        var parts := [[s[0]] + rest[0]] + rest[1..];
        assert Split(s, sep) == parts;
        if |rest| == 1 {
          assert Join(parts, sep) == [s[0]] + rest[0];
        } else {
          assert parts[1..] == rest[1..];
          assert Join(rest, sep) == rest[0] + [sep] + Join(rest[1..], sep);
          assert Join(parts, sep) == [s[0]] + rest[0] + [sep] + Join(rest[1..], sep);
        }
        assert s == [s[0]] + s[1..];
        forall i | 0 <= i < |parts| ensures sep !in parts[i] {
          if i > 0 { assert parts[i] == rest[i]; }
        }
      }
    }
  }

  /** The entries of a split list that the account loops act on
      (`if len(account) != 0`), in their original order. */
  function NonEmpty(parts: seq<string>): (r: seq<string>)
    ensures |r| <= |parts|
    ensures forall i :: 0 <= i < |r| ==> r[i] != "" && r[i] in parts
  {
    if |parts| == 0 then []
    else NonEmpty(parts[..|parts| - 1]) + (if parts[|parts| - 1] != "" then [parts[|parts| - 1]] else [])
  }

  lemma {:induction false} NonEmptyMembers(parts: seq<string>, x: string)
    ensures x in NonEmpty(parts) <==> x in parts && x != ""
  {
    if |parts| > 0 {
      var init := parts[..|parts| - 1];
      NonEmptyMembers(init, x);
      assert parts == init + [parts[|parts| - 1]];
    }
  }

  // ---------------------------------------------------------------------------
  // path.Join / path.Dir on clean elements

  /** `path.Join`: the non-empty elements joined by '/'. The lexical clean-up
      that Go's `path.Clean` then applies is not modelled (see README). */
  function PathJoin(elems: seq<string>): string
  {
    if |elems| == 0 then ""
    else
      var head := PathJoin(elems[..|elems| - 1]);
      var last := elems[|elems| - 1];
      if last == "" then head else if head == "" then last else head + "/" + last
  }

  /** Joining two non-empty elements puts one '/' between them. */
  lemma PathJoinPair(a: string, b: string)
    requires a != "" && b != ""
    ensures PathJoin([a, b]) == a + "/" + b
  {
    assert [a, b][..1] == [a];
    assert [a][..0] == [];
    assert PathJoin([a]) == a;
  }

  /** Joining three elements whose last two are non-empty is joining the
      first with the last two already joined. */
  lemma PathJoinTriple(a: string, b: string, c: string)
    requires b != "" && c != ""
    ensures PathJoin([a, b, c]) == PathJoin([a, b + "/" + c])
  {
    assert [a, b, c][..2] == [a, b];
    assert [a, b][..1] == [a];
    assert [a, b + "/" + c][..1] == [a];
    assert [a][..0] == [];
    assert PathJoin([a]) == a;
    assert PathJoin([a, b]) == (if a == "" then b else a + "/" + b);
  }

  /** Index of the last occurrence of `c`, or -1. */
  function LastIndex(s: string, c: char): (i: int)
    ensures -1 <= i < |s|
    ensures i >= 0 ==> s[i] == c
    ensures forall j :: i < j < |s| ==> s[j] != c
  {
    if |s| == 0 then -1
    else if s[|s| - 1] == c then |s| - 1
    else LastIndex(s[..|s| - 1], c)
  }

  /** `path.Dir`: everything before the last '/', "." when there is none. */
  function PathDir(p: string): string
  {
    var i := LastIndex(p, '/');
    if i < 0 then "." else if i == 0 then "/" else p[..i]
  }

  /** The directory of `dir/name` is `dir` when the name has no '/'. */
  lemma DirOfChild(dir: string, name: string)
    requires dir != "" && '/' !in name
    ensures PathDir(dir + "/" + name) == dir
  {
    var p := dir + "/" + name;
    assert p[|dir|] == '/';
    forall j | |dir| < j < |p| ensures p[j] != '/' {
      assert p[j] == name[j - |dir| - 1];
    }
    assert p[..|dir|] == dir;
  }

  // ---------------------------------------------------------------------------
  // strings.ReplaceAll

  /** `strings.ReplaceAll`: the leftmost occurrences of `pat`, scanned from
      the left and never overlapping, are replaced by `rep`; an empty `pat`
      inserts `rep` before every character and at the end. */
  function ReplaceAll(s: string, pat: string, rep: string): string
    decreases |s|
  {
    if |pat| == 0 then InsertEverywhere(s, rep)
    else if |s| < |pat| then s
    else if s[..|pat|] == pat then rep + ReplaceAll(s[|pat|..], pat, rep)
    else [s[0]] + ReplaceAll(s[1..], pat, rep)
  }

  function InsertEverywhere(s: string, rep: string): string
  {
    if |s| == 0 then rep else rep + [s[0]] + InsertEverywhere(s[1..], rep)
  }

  /** `pat` occurs in `s` starting at index `i` */
  predicate OccursAt(s: string, pat: string, i: nat) {
    i + |pat| <= |s| && s[i..i + |pat|] == pat
  }

  ghost predicate Contains(s: string, pat: string) {
    exists i :: 0 <= i <= |s| && OccursAt(s, pat, i)
  }

  /** Replacing a character by a text without it removes every copy. */
  lemma {:induction false} ReplaceAllClearsChar(s: string, c: char, rep: string)
    requires c !in rep
    ensures c !in ReplaceAll(s, [c], rep)
    decreases |s|
  {
    if |s| >= 1 {
      ReplaceAllClearsChar(s[1..], c, rep);
      if s[..1] != [c] {
        assert s[0] != c;
      }
    }
  }

  /** Replacing a text that does not occur changes nothing. */
  lemma {:induction false} ReplaceAllAbsent(s: string, pat: string, rep: string)
    requires |pat| > 0 && !Contains(s, pat)
    ensures ReplaceAll(s, pat, rep) == s
    decreases |s|
  {
    if |s| >= |pat| {
      assert !OccursAt(s, pat, 0);
      assert s[..|pat|] != pat;
      forall i: nat ensures !OccursAt(s[1..], pat, i) {
        if OccursAt(s[1..], pat, i) {
          assert s[1..][i..i + |pat|] == s[i + 1..i + 1 + |pat|];
          assert OccursAt(s, pat, i + 1);
        }
      }
      ReplaceAllAbsent(s[1..], pat, rep);
      assert s == [s[0]] + s[1..];
    }
  }

  /** A text that lacks one of `pat`'s characters has no occurrence of it. */
  lemma ReplaceAllMissingChar(s: string, pat: string, rep: string, c: char)
    requires c in pat && c !in s
    ensures ReplaceAll(s, pat, rep) == s
  {
    var k :| 0 <= k < |pat| && pat[k] == c;
    ReplaceAllAbsent(s, pat, rep);
  }

  /** A character that cannot be part of `pat` splits the replacement in two:
      no occurrence can straddle it. */
  lemma {:induction false} ReplaceAllAround(a: string, c: char, b: string, pat: string, rep: string)
    requires |pat| > 0 && c !in pat
    ensures ReplaceAll(a + [c] + b, pat, rep) == ReplaceAll(a, pat, rep) + [c] + ReplaceAll(b, pat, rep)
    decreases |a|
  {
    var s := a + [c] + b;
    if |s| < |pat| {
      assert ReplaceAll(a, pat, rep) == a;
      assert ReplaceAll(b, pat, rep) == b;
    } else if |a| == 0 {
      assert s[0] == c;
      assert s[..|pat|] != pat by { assert s[..|pat|][0] == c; }
      assert s[1..] == b;
    } else if s[..|pat|] == pat {
      assert s[|a|] == c;
      assert forall i :: 0 <= i < |pat| ==> pat[i] == s[i] && pat[i] != c;
      assert a[..|pat|] == pat;
      assert s[|pat|..] == a[|pat|..] + [c] + b;
      ReplaceAllAround(a[|pat|..], c, b, pat, rep);
    } else {
      assert s[1..] == a[1..] + [c] + b;
      ReplaceAllAround(a[1..], c, b, pat, rep);
      if |a| >= |pat| {
        assert a[..|pat|] == s[..|pat|];
      } else {
        assert ReplaceAll(a, pat, rep) == a;
        assert ReplaceAll(a[1..], pat, rep) == a[1..];
        assert a == [a[0]] + a[1..];
      }
    }
  }

  lemma ReplaceAllWhole(pat: string, rep: string)
    requires |pat| > 0
    ensures ReplaceAll(pat, pat, rep) == rep
  {
    assert pat[..|pat|] == pat;
    assert pat[|pat|..] == [];
  }

  /** After replacing in a non-empty text with a non-empty replacement, the
      last character is the text's own last one or the replacement's. */
  lemma {:induction false} ReplaceAllLast(s: string, pat: string, rep: string)
    requires |pat| > 0 && |s| > 0 && |rep| > 0
    ensures var r := ReplaceAll(s, pat, rep);
      |r| > 0 && (r[|r| - 1] == s[|s| - 1] || r[|r| - 1] == rep[|rep| - 1])
    decreases |s|
  {
    if |s| < |pat| {
    } else if s[..|pat|] == pat {
      if |s| > |pat| {
        ReplaceAllLast(s[|pat|..], pat, rep);
      } else {
        assert ReplaceAll(s[|pat|..], pat, rep) == [];
      }
    } else if |s| > 1 {
      ReplaceAllLast(s[1..], pat, rep);
    } else {
      assert ReplaceAll(s[1..], pat, rep) == [];
    }
  }

  // ---------------------------------------------------------------------------
  // Numbers

  /** Value of a string of decimal digits. */
  function DigitsValue(s: string): nat
    requires AllDigits(s)
  {
    if |s| == 0 then 0
    else 10 * DigitsValue(s[..|s| - 1]) + (s[|s| - 1] as int - '0' as int)
  }

  /** `strconv.Atoi` with its error ignored (`itemID, _ := strconv.Atoi(s)`):
      an optional sign followed by at least one digit, otherwise 0. */
  function Atoi(s: string): int
  {
    if |s| > 1 && s[0] == '+' && AllDigits(s[1..]) then DigitsValue(s[1..]) as int
    else if |s| > 1 && s[0] == '-' && AllDigits(s[1..]) then -(DigitsValue(s[1..]) as int)
    else if |s| > 0 && AllDigits(s) then DigitsValue(s)
    else 0
  }

  /** `uint(i)` on a 64-bit platform: a negative value wraps around. */
  function ToUint(i: int): nat
  {
    if i < 0 then (i % 0x1_0000_0000_0000_0000) else i
  }

  /** `fmt.Sprintf("%v", n)` for an unsigned integer: its decimal digits. */
  function Decimal(n: nat): (r: string)
    ensures |r| > 0 && AllDigits(r)
  {
    if n < 10 then [('0' as int + n) as char]
    else Decimal(n / 10) + [('0' as int + n % 10) as char]
  }
}
