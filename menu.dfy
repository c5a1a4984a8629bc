/**
 * The v3 install menu: reading the filter answers into parameters, dropping
 * tools that fail the filter or are already present, ranking the rest by
 * compatibility, truncating to the count limit and turning the typed
 * selection into the tools handed to the planner. Every answer the user
 * types is a parameter.
 */
module Menu {
  import opened Wrappers
  import opened Strings
  import opened Model
  import opened Scorer
  import opened Filter

  // ----- Filter answers (`configure_install_params`) -----

  /** `max(0, min(100, n))`: a percentage forced into 0..100. */
  function Clamp(n: int): (r: int)
    ensures 0 <= r <= 100
    ensures 0 <= n <= 100 ==> r == n
    ensures n < 0 ==> r == 0
    ensures n > 100 ==> r == 100
  {
    if n < 0 then 0 else if n > 100 then 100 else n
  }

  predicate IsDigit(c: char) {
    '0' <= c <= '9'
  }

  /** `s.isdigit()` for ASCII: not empty and every character a digit. */
  predicate AllDigits(s: string) {
    s != [] && forall i :: 0 <= i < |s| ==> IsDigit(s[i])
  }

  /** Every character is a digit; the empty string included. */
  predicate DigitsOnly(s: string) {
    forall i :: 0 <= i < |s| ==> IsDigit(s[i])
  }

  /** A numeral made of digits denotes a natural number. */
  lemma {:induction false} NumeralValueNat(s: string)
    requires DigitsOnly(s)
    ensures NumeralValue(s) >= 0
    decreases |s|
  {
    if s != [] {
      NumeralValueNat(s[..|s| - 1]);
    }
  }

  /** `int(s)` of an answer that passes `isdigit()`; `None` for an answer the menu ignores. */
  function WholeAnswer(s: string): (r: Option<nat>)
    ensures r.Some? <==> AllDigits(s)
    ensures r.Some? ==> r.value == NumeralValue(s)
  {
    if AllDigits(s) then
      NumeralValueNat(s);
      Some(NumeralValue(s))
    else None
  }

  /** Typing a number in decimal gives that number. */
  lemma WholeAnswerRoundTrip(n: nat)
    ensures WholeAnswer(NatToString(n)) == Some(n)
  {
    NatToStringRoundTrip(n);
  }

  /** `s.replace('.', '')`. */
  function DropPoints(s: string): (r: string)
    ensures |r| <= |s|
    ensures '.' !in r
  {
    if s == [] then []
    else (if s[0] == '.' then [] else [s[0]]) + DropPoints(s[1..])
  }

  /** The guard the source puts before `float(...)`: without its points the answer is all digits. */
  predicate SizeGuard(s: string) {
    s != [] && AllDigits(DropPoints(s))
  }

  function Pow10(n: nat): (r: nat)
    ensures r >= 1
  {
    if n == 0 then 1 else 10 * Pow10(n - 1)
  }

  /** The number `whole.frac` denotes. */
  function DecimalValue(whole: string, frac: string): real {
    NumeralValue(whole) as real + NumeralValue(frac) as real / Pow10(|frac|) as real
  }

  /**
   * Python's `float(s)` on a string of digits and points: defined when there
   * is at most one point and at least one digit, with the digits after the
   * point as a fraction.
   */
  function Decimal(s: string): (r: Option<real>)
    ensures r.Some? ==> r.value >= 0.0
  {
    if '.' in s then
      var i := IndexOfChar(s, '.');
      var whole, frac := s[..i], s[i + 1..];
      if DigitsOnly(whole) && DigitsOnly(frac) && whole + frac != [] then
        NumeralValueNat(whole);
        NumeralValueNat(frac);
        Some(DecimalValue(whole, frac))
      else None
    else if AllDigits(s) then
      NumeralValueNat(s);
      Some(NumeralValue(s) as real)
    else None
  }

  const FloatError := "ValueError: could not convert string to float"

  /**
   * The size answer as the source reads it: an answer the guard lets
   * through goes to `float`, which raises on a second point.
   */
  function SizeAnswerAsWritten(s: string): (r: Result<Option<real>>)
    ensures r.Failure? <==> SizeGuard(s) && Decimal(s).None?
    ensures r == Success(None) <==> !SizeGuard(s)
  {
    if !SizeGuard(s) then Success(None)
    else match Decimal(s)
      case None => Failure(FloatError)
      case Some(v) => Success(Some(v))
  }

  /** "1.2.3" passes the guard and makes `float` raise, which ends the program. */
  lemma SecondPointRaises()
    ensures SizeGuard("1.2.3")
    ensures SizeAnswerAsWritten("1.2.3") == Failure(FloatError)
  {
    assert DropPoints("1.2.3") == "123";
    assert IndexOfChar("1.2.3", '.') == 1;
    assert "1.2.3"[2..] == "2.3";
    assert !DigitsOnly("2.3") by { assert !IsDigit("2.3"[1]); }
  }

  /**
   * The size answer as the guard evidently means it: a decimal number, and
   * any other answer leaves the limit unset like every other ignored answer.
   */
  function SizeAnswer(s: string): (r: Option<real>)
    ensures r.Some? ==> r.value >= 0.0
    ensures SizeAnswerAsWritten(s).Success? ==> r == SizeAnswerAsWritten(s).value
    ensures SizeAnswerAsWritten(s).Failure? ==> r.None?
  {
    if SizeGuard(s) then Decimal(s) else None
  }

  lemma {:induction false} DropPointsAppend(a: string, b: string)
    ensures DropPoints(a + b) == DropPoints(a) + DropPoints(b)
    decreases |a|
  {
    if a != [] {
      var h := if a[0] == '.' then [] else [a[0]];
      assert (a + b)[0] == a[0] && (a + b)[1..] == a[1..] + b;
      assert DropPoints(a + b) == h + DropPoints(a[1..] + b);
      DropPointsAppend(a[1..], b);
      assert DropPoints(a) == h + DropPoints(a[1..]);
    } else {
      assert a + b == b;
    }
  }

  lemma {:induction false} DropPointsDigits(a: string)
    requires DigitsOnly(a)
    ensures DropPoints(a) == a
    decreases |a|
  {
    if a != [] {
      DropPointsDigits(a[1..]);
    }
  }

  /** `Decimal` splits at the first point. */
  lemma DecimalAt(whole: string, frac: string)
    requires '.' !in whole
    ensures Decimal(whole + "." + frac) ==
      if DigitsOnly(whole) && DigitsOnly(frac) && whole + frac != [] then
        Some(DecimalValue(whole, frac))
      else None
  {
    var s := whole + "." + frac;
    assert s[|whole|] == '.' && s[..|whole|] == whole && s[|whole| + 1..] == frac;
    DecimalAtIndex(s, |whole|);
  }

  lemma DecimalAtIndex(s: string, i: nat)
    requires i < |s| && s[i] == '.' && '.' !in s[..i]
    ensures Decimal(s) ==
      if DigitsOnly(s[..i]) && DigitsOnly(s[i + 1..]) && s[..i] + s[i + 1..] != [] then
        Some(DecimalValue(s[..i], s[i + 1..]))
      else None
  {
    FirstIndexUnique(s, '.', IndexOfChar(s, '.'), i);
  }

  /** Without its points, a digit run, a point and a digit run is the two runs. */
  lemma DropPointsDecimal(whole: string, frac: string)
    requires DigitsOnly(whole) && DigitsOnly(frac)
    ensures DropPoints(whole + "." + frac) == whole + frac
  {
    assert DropPoints(".") == [] by {
      assert "."[0] == '.' && "."[1..] == [];
    }
    DropPointsAppend(whole, ".");
    DropPointsDigits(whole);
    assert DropPoints(whole + ".") == whole;
    DropPointsAppend(whole + ".", frac);
    DropPointsDigits(frac);
  }

  lemma DigitsConcat(a: string, b: string)
    requires DigitsOnly(a) && DigitsOnly(b)
    ensures DigitsOnly(a + b)
  {
    assert forall i :: 0 <= i < |a + b| ==> (a + b)[i] == if i < |a| then a[i] else b[i - |a|];
  }

  lemma NoPointInDigits(a: string)
    requires DigitsOnly(a)
    ensures '.' !in a
  {
  }

  /** A point between two runs of digits reads as that decimal number. */
  lemma SizeAnswerDecimal(whole: string, frac: string)
    requires AllDigits(whole) && DigitsOnly(frac)
    ensures SizeAnswer(whole + "." + frac)
      == Some(DecimalValue(whole, frac))
  {
    var s := whole + "." + frac;
    DropPointsDecimal(whole, frac);
    DigitsConcat(whole, frac);
    assert SizeGuard(s);
    NoPointInDigits(whole);
    DecimalAt(whole, frac);
  }

  /** A whole number of megabytes reads as itself. */
  lemma SizeAnswerWhole(n: nat)
    ensures SizeAnswer(NatToString(n)) == Some(n as real)
  {
    var s := NatToString(n);
    NatToStringRoundTrip(n);
    DropPointsDigits(s);
    assert '.' !in s;
  }

  /** `[t.strip() for t in s.split(',') if t.strip()]`. */
  function Tags(pieces: seq<string>): (r: seq<string>)
    ensures forall k :: 0 <= k < |r| ==> r[k] != ""
    ensures |r| <= |pieces|
  {
    if pieces == [] then []
    else (if Strip(pieces[0]) != "" then [Strip(pieces[0])] else []) + Tags(pieces[1..])
  }

  /** A tag answer: blank keeps the empty list, otherwise the comma-separated tags. */
  function TagAnswer(raw: string): (r: seq<string>)
    ensures forall k :: 0 <= k < |r| ==> r[k] != ""
  {
    var s := Strip(raw);
    if s == "" then [] else Tags(SplitChar(s, ','))
  }

  lemma TagOfStripped(tag: string, rest: seq<string>)
    requires tag != "" && Strip(tag) == tag
    ensures (if Strip(tag) != "" then [Strip(tag)] else []) + rest == [tag] + rest
  {
  }

  lemma {:induction false} TagsOfStripped(tags: seq<string>)
    requires forall k :: 0 <= k < |tags| ==> tags[k] != "" && Strip(tags[k]) == tags[k]
    ensures Tags(tags) == tags
  {
    if tags != [] {
      TagsOfStripped(tags[1..]);
      TagOfStripped(tags[0], Tags(tags[1..]));
      assert Tags(tags) == (if Strip(tags[0]) != "" then [Strip(tags[0])] else []) + Tags(tags[1..]);
      assert tags == [tags[0]] + tags[1..];
    }
  }

  /** Typing a list of tags separated by commas gives the list back. */
  lemma TagsRoundTrip(tags: seq<string>)
    requires |tags| >= 1
    requires forall k :: 0 <= k < |tags| ==> tags[k] != "" && Strip(tags[k]) == tags[k] && ',' !in tags[k]
    ensures Tags(SplitChar(Join(tags, ","), ',')) == tags
  {
    SplitJoin(tags, ',');
    TagsOfStripped(tags);
  }

  /** The eight answers of the filter dialogue, as typed. */
  datatype Answers = Answers(
    minCompat: string,
    maxCompat: string,
    maxSize: string,
    maxRam: string,
    includeTags: string,
    excludeTags: string,
    maxCount: string,
    confirm: string)

  /** The user declined the summary: `input().strip().lower() == 'n'`. */
  predicate Declined(a: Answers) {
    Lower(Strip(a.confirm)) == "n"
  }

  /** A percentage answer: a number clamped into 0..100, otherwise the default. */
  function PercentAnswer(raw: string, default: int): (r: int)
    ensures AllDigits(Strip(raw)) ==> r == Clamp(NumeralValue(Strip(raw)))
    ensures !AllDigits(Strip(raw)) ==> r == default
  {
    var n := WholeAnswer(Strip(raw));
    if n.Some? then Clamp(n.value) else default
  }

  /** A RAM or count answer: the number typed, otherwise no limit. */
  function LimitAnswer(raw: string): (r: Option<int>)
    ensures r.Some? <==> AllDigits(Strip(raw))
    ensures r.Some? ==> r.value == NumeralValue(Strip(raw)) && r.value >= 0
  {
    var n := WholeAnswer(Strip(raw));
    if n.Some? then Some(n.value as int) else None
  }

  /**
   * `configure_install_params`: each answer overrides its default when it
   * reads as a number or is not blank; declining the summary restores the
   * defaults. The size answer is read as `SizeAnswer`.
   */
  function Configure(a: Answers): (p: InstallParams)
    ensures Declined(a) ==> p == Defaults
    ensures 0 <= p.minCompatibility <= 100 && 0 <= p.maxCompatibility <= 100
    ensures p.maxSizeMb.Some? ==> p.maxSizeMb.value >= 0.0
    ensures p.maxRamMb.Some? ==> p.maxRamMb.value >= 0
    ensures p.maxCount.Some? ==> p.maxCount.value >= 0
    ensures forall k :: 0 <= k < |p.tagsFilter| ==> p.tagsFilter[k] != ""
    ensures forall k :: 0 <= k < |p.excludeTags| ==> p.excludeTags[k] != ""
  {
    if Declined(a) then Defaults
    else
      InstallParams(
        PercentAnswer(a.minCompat, 0),
        PercentAnswer(a.maxCompat, 100),
        SizeAnswer(Strip(a.maxSize)),
        LimitAnswer(a.maxRam),
        TagAnswer(a.includeTags),
        TagAnswer(a.excludeTags),
        LimitAnswer(a.maxCount))
  }

  /** Pressing Enter at every question keeps the defaults. */
  lemma BlankAnswersKeepDefaults(confirm: string)
    ensures Configure(Answers("", "", "", "", "", "", "", confirm)) == Defaults
  {
    assert Strip("") == "";
  }

  lemma DigitsStripped(s: string)
    requires AllDigits(s)
    ensures Strip(s) == s
  {
    assert IsDigit(s[0]) && IsDigit(s[|s| - 1]);
    StripCharsUnchanged(s, Whitespace);
  }

  /** A number typed in decimal reads as itself. */
  lemma NumberAnswer(n: nat)
    ensures Strip(NatToString(n)) == NatToString(n) && AllDigits(NatToString(n))
    ensures NumeralValue(NatToString(n)) == n
  {
    DigitsStripped(NatToString(n));
    NatToStringRoundTrip(n);
  }

  /**
   * Numbers typed in decimal become the bounds, the percentages clamped
   * into 0..100; the size alike, as a whole number of megabytes.
   */
  lemma ConfigureReadsNumbers(minC: nat, maxC: nat, size: nat, ram: nat, count: nat, confirm: string)
    requires !Declined(Answers("", "", "", "", "", "", "", confirm))
    ensures Configure(Answers(NatToString(minC), NatToString(maxC), NatToString(size), NatToString(ram),
                              "", "", NatToString(count), confirm))
      == InstallParams(Clamp(minC), Clamp(maxC), Some(size as real), Some(ram), [], [], Some(count))
  {
    NumberAnswer(minC);
    NumberAnswer(maxC);
    NumberAnswer(size);
    NumberAnswer(ram);
    NumberAnswer(count);
    SizeAnswerWhole(size);
    assert Strip("") == "";
  }

  // ----- Ranking (`sorted(..., key=score, reverse=True)`) -----

  /** Put `x` before the first element whose key is not above its own. */
  function Insert<T>(x: T, s: seq<T>, key: T -> int): (r: seq<T>)
    ensures |r| == |s| + 1
    ensures multiset(r) == multiset(s) + multiset{x}
  {
    if s == [] || key(s[0]) <= key(x) then [x] + s
    else
      assert s == [s[0]] + s[1..];
      [s[0]] + Insert(x, s[1..], key)
  }

  /** Python's stable sort by a key, highest key first. */
  function SortDescending<T>(s: seq<T>, key: T -> int): (r: seq<T>)
    ensures |r| == |s|
  {
    if s == [] then [] else Insert(s[0], SortDescending(s[1..], key), key)
  }

  predicate Descending<T>(s: seq<T>, key: T -> int) {
    forall i, j :: 0 <= i < j < |s| ==> key(s[i]) >= key(s[j])
  }

  /** The elements of `s` whose key is `v`, in order. */
  function WithKey<T>(s: seq<T>, key: T -> int, v: int): seq<T> {
    if s == [] then []
    else (if key(s[0]) == v then [s[0]] else []) + WithKey(s[1..], key, v)
  }

  lemma {:induction false} InsertDescending<T>(x: T, s: seq<T>, key: T -> int)
    requires Descending(s, key)
    ensures Descending(Insert(x, s, key), key)
  {
    if s != [] && key(s[0]) > key(x) {
      InsertDescending(x, s[1..], key);
      var r := Insert(x, s[1..], key);
      assert forall k :: 0 <= k < |r| ==> key(r[k]) <= key(s[0]) by {
        forall k | 0 <= k < |r|
          ensures key(r[k]) <= key(s[0])
        {
          assert r[k] in multiset(s[1..]) + multiset{x};
          if r[k] in multiset(s[1..]) {
            var m :| 0 <= m < |s[1..]| && s[1..][m] == r[k];
            assert s[1 + m] == r[k];
          }
        }
      }
    }
  }

  lemma {:induction false} InsertWithKey<T>(x: T, s: seq<T>, key: T -> int, v: int)
    ensures WithKey(Insert(x, s, key), key, v) == (if key(x) == v then [x] else []) + WithKey(s, key, v)
  {
    if s != [] && key(s[0]) > key(x) {
      InsertWithKey(x, s[1..], key, v);
      var r := [s[0]] + Insert(x, s[1..], key);
      assert r[1..] == Insert(x, s[1..], key);
    }
  }

  /** The ranking is sorted by key, highest first. */
  lemma {:induction false} SortDescendingSorted<T>(s: seq<T>, key: T -> int)
    ensures Descending(SortDescending(s, key), key)
  {
    if s != [] {
      SortDescendingSorted(s[1..], key);
      InsertDescending(s[0], SortDescending(s[1..], key), key);
    }
  }

  /** The ranking holds the same elements, each as often. */
  lemma {:induction false} SortDescendingPermutes<T>(s: seq<T>, key: T -> int)
    ensures multiset(SortDescending(s, key)) == multiset(s)
  {
    if s != [] {
      SortDescendingPermutes(s[1..], key);
      assert s == [s[0]] + s[1..];
    }
  }

  /** The sort is stable: elements with the same key keep their order. */
  lemma {:induction false} SortDescendingStable<T>(s: seq<T>, key: T -> int, v: int)
    ensures WithKey(SortDescending(s, key), key, v) == WithKey(s, key, v)
  {
    if s != [] {
      SortDescendingStable(s[1..], key, v);
      InsertWithKey(s[0], SortDescending(s[1..], key), key, v);
    }
  }

  /** A list already ranked is left as it is. */
  lemma {:induction false} SortDescendingKeepsSorted<T>(s: seq<T>, key: T -> int)
    requires Descending(s, key)
    ensures SortDescending(s, key) == s
  {
    if s != [] {
      assert Descending(s[1..], key);
      SortDescendingKeepsSorted(s[1..], key);
    }
  }

  /** The ranking key: the compatibility score on this host. */
  function ScoreKey(sys: SystemInfo): Tool -> int {
    t => ScoreTool(t, sys)
  }

  /** The catalogue order of the menu: highest compatibility score first. */
  function Rank(ts: seq<Tool>, sys: SystemInfo): seq<Tool> {
    SortDescending(ts, ScoreKey(sys))
  }

  /** Ranking sorts by score, keeps every tool and keeps tools of equal score in their order. */
  lemma RankByScore(ts: seq<Tool>, sys: SystemInfo)
    ensures forall i, j :: 0 <= i < j < |Rank(ts, sys)| ==>
      ScoreTool(Rank(ts, sys)[i], sys) >= ScoreTool(Rank(ts, sys)[j], sys)
    ensures multiset(Rank(ts, sys)) == multiset(ts)
    ensures forall v :: WithKey(Rank(ts, sys), ScoreKey(sys), v) == WithKey(ts, ScoreKey(sys), v)
  {
    var key := ScoreKey(sys);
    SortDescendingSorted(ts, key);
    SortDescendingPermutes(ts, key);
    forall v {
      SortDescendingStable(ts, key, v);
    }
  }

  /** `ranked[:n]` when `max_count` is truthy; a negative count drops that many from the end. */
  function Truncate<T>(ranked: seq<T>, maxCount: Option<int>): (r: seq<T>)
    ensures |r| <= |ranked| && r == ranked[..|r|]
    ensures maxCount.None? || maxCount.value == 0 ==> r == ranked
    ensures maxCount.Some? && maxCount.value > 0 ==>
      |r| == if maxCount.value < |ranked| then maxCount.value else |ranked|
    ensures maxCount.Some? && maxCount.value < 0 ==>
      |r| == if |ranked| + maxCount.value > 0 then |ranked| + maxCount.value else 0
  {
    if maxCount.None? || maxCount.value == 0 then ranked
    else PyPrefix(ranked, maxCount.value)
  }

  /** Python's `s[:n]`. */
  function PyPrefix<T>(s: seq<T>, n: int): (r: seq<T>)
    ensures |r| <= |s| && r == s[..|r|]
    ensures 0 <= n ==> |r| == if n < |s| then n else |s|
    ensures n < 0 ==> |r| == if |s| + n > 0 then |s| + n else 0
  {
    if n >= 0 then s[..if n < |s| then n else |s|]
    else s[..if |s| + n > 0 then |s| + n else 0]
  }

  // ----- Selection (`raw.split(',')` then `chunk.split()`) -----

  /** Length of the leading run of non-space characters. */
  function WordLength(s: string): (n: nat)
    ensures n <= |s|
    ensures forall k :: 0 <= k < n ==> !IsSpace(s[k])
    ensures n < |s| ==> IsSpace(s[n])
  {
    if s == [] || IsSpace(s[0]) then 0 else 1 + WordLength(s[1..])
  }

  /** `s.split()`: the maximal runs of non-space characters. */
  function Words(s: string): (r: seq<string>)
    ensures forall k :: 0 <= k < |r| ==> r[k] != [] && forall m :: 0 <= m < |r[k]| ==> !IsSpace(r[k][m])
    decreases |s|
  {
    if s == [] then []
    else if IsSpace(s[0]) then Words(s[1..])
    else
      var n := WordLength(s);
      [s[..n]] + Words(s[n..])
  }

  predicate IsWord(w: string) {
    w != [] && forall m :: 0 <= m < |w| ==> !IsSpace(w[m])
  }

  lemma {:induction false} WordLengthOfWord(w: string, rest: string)
    requires forall m :: 0 <= m < |w| ==> !IsSpace(w[m])
    requires rest != [] ==> IsSpace(rest[0])
    ensures WordLength(w + rest) == |w|
    decreases |w|
  {
    if w != [] {
      assert (w + rest)[1..] == w[1..] + rest;
      WordLengthOfWord(w[1..], rest);
    }
  }

  lemma WordsOfWord(w: string)
    requires IsWord(w)
    ensures Words(w) == [w]
  {
    WordLengthOfWord(w, "");
    assert w + "" == w;
    assert w[|w|..] == [];
  }

  /** Words typed with single spaces between them are read back as typed. */
  lemma {:induction false} WordsJoin(ws: seq<string>)
    requires forall k :: 0 <= k < |ws| ==> IsWord(ws[k])
    ensures Words(Join(ws, " ")) == ws
  {
    if |ws| == 1 {
      WordsOfWord(ws[0]);
    } else if |ws| > 1 {
      var rest := Join(ws[1..], " ");
      var s := ws[0] + " " + rest;
      assert s == ws[0] + (" " + rest);
      WordLengthOfWord(ws[0], " " + rest);
      assert s[..|ws[0]|] == ws[0];
      assert s[|ws[0]|..] == " " + rest;
      assert (" " + rest)[1..] == rest;
      WordsJoin(ws[1..]);
    }
  }

  /** The words of every comma-separated chunk, in order. */
  function ChunkWords(chunks: seq<string>): (r: seq<string>)
    ensures forall k :: 0 <= k < |r| ==> IsWord(r[k])
  {
    if chunks == [] then [] else Words(chunks[0]) + ChunkWords(chunks[1..])
  }

  /** The names of a free-form selection. */
  function SelectedNames(s: string): (r: seq<string>)
    ensures forall k :: 0 <= k < |r| ==> IsWord(r[k])
  {
    ChunkWords(SplitChar(s, ','))
  }

  lemma {:induction false} ChunkWordsOfWords(names: seq<string>)
    requires forall k :: 0 <= k < |names| ==> IsWord(names[k])
    ensures ChunkWords(names) == names
  {
    if names != [] {
      WordsOfWord(names[0]);
      ChunkWordsOfWords(names[1..]);
    }
  }

  /** Names typed with commas between them are read back as typed. */
  lemma SelectionRoundTrip(names: seq<string>)
    requires |names| >= 1
    requires forall k :: 0 <= k < |names| ==> IsWord(names[k]) && ',' !in names[k]
    ensures SelectedNames(Join(names, ",")) == names
  {
    SplitJoin(names, ',');
    ChunkWordsOfWords(names);
  }

  function NamesOf(ts: seq<Tool>): (r: seq<string>)
    ensures |r| == |ts| && forall k :: 0 <= k < |ts| ==> r[k] == ts[k].name
  {
    seq(|ts|, k requires 0 <= k < |ts| => ts[k].name)
  }

  /** What the typed answer asks for. */
  datatype Choice = NoInput | Reconfigure | SearchFor | Names(names: seq<string>)

  function Choose(raw: string, ranked: seq<Tool>): (c: Choice)
    ensures Strip(raw) == "" <==> c == NoInput
    ensures Lower(Strip(raw)) == "filter" ==> c == Reconfigure
    ensures Lower(Strip(raw)) == "search" ==> c == SearchFor
    ensures Lower(Strip(raw)) == "all" ==> c == Names(NamesOf(ranked))
    ensures Lower(Strip(raw)) == "best20" ==> c == Names(NamesOf(PyPrefix(ranked, 20)))
    ensures Lower(Strip(raw)) == "top5" ==> c == Names(NamesOf(PyPrefix(ranked, 5)))
    ensures Lower(Strip(raw)) !in ["filter", "search", "all", "best20", "top5"] && Strip(raw) != "" ==>
      c == Names(SelectedNames(Strip(raw)))
  {
    var s := Strip(raw);
    var l := Lower(s);
    if s == "" then NoInput
    else if l == "filter" then Reconfigure
    else if l == "search" then SearchFor
    else if l == "all" then Names(NamesOf(ranked))
    else if l == "best20" then Names(NamesOf(PyPrefix(ranked, 20)))
    else if l == "top5" then Names(NamesOf(PyPrefix(ranked, 5)))
    else Names(SelectedNames(s))
  }

  // ----- Validation of the selected names -----

  /** The catalogue entries of the known names, in the order typed. */
  function KnownTools(names: seq<string>, all: map<string, Tool>): seq<Tool>
    decreases |names|
  {
    if names == [] then []
    else
      var last := names[|names| - 1];
      KnownTools(names[..|names| - 1], all) + (if last in all then [all[last]] else [])
  }

  /** The names that are not in the catalogue, reported as unknown. */
  function UnknownNames(names: seq<string>, all: map<string, Tool>): seq<string>
    decreases |names|
  {
    if names == [] then []
    else
      var last := names[|names| - 1];
      UnknownNames(names[..|names| - 1], all) + (if last in all then [] else [last])
  }

  /** The selection loop: keep the known names' tools and report the rest. */
  method ValidateSelection(names: seq<string>, all: map<string, Tool>) returns (selected: seq<Tool>, unknown: seq<string>)
    ensures selected == KnownTools(names, all)
    ensures unknown == UnknownNames(names, all)
  {
    selected, unknown := [], [];
    var i := 0;
    while i < |names|
      invariant 0 <= i <= |names|
      invariant selected == KnownTools(names[..i], all)
      invariant unknown == UnknownNames(names[..i], all)
    {
      assert names[..i + 1][..i] == names[..i];
      var name := names[i];
      if name !in all {
        unknown := unknown + [name];
      } else {
        selected := selected + [all[name]];
      }
      i := i + 1;
    }
    assert names[..|names|] == names;
  }

  /**
   * Every name is either kept or reported, never both: the kept tools are
   * catalogue entries of known names, and the reported names are the
   * ones the catalogue lacks.
   */
  lemma {:induction false} ValidationSplits(names: seq<string>, all: map<string, Tool>)
    ensures |KnownTools(names, all)| + |UnknownNames(names, all)| == |names|
    ensures forall t :: t in KnownTools(names, all) ==> exists n :: n in names && n in all && all[n] == t
    ensures forall n :: n in UnknownNames(names, all) <==> n in names && n !in all
    decreases |names|
  {
    if names != [] {
      var init := names[..|names| - 1];
      ValidationSplits(init, all);
      assert names == init + [names[|names| - 1]];
      forall t | t in KnownTools(names, all)
        ensures exists n :: n in names && n in all && all[n] == t
      {
        if t in KnownTools(init, all) {
          var n :| n in init && n in all && all[n] == t;
          assert n in names;
        }
      }
    }
  }

  /** A catalogue keyed by tool name. */
  predicate Consistent(ts: seq<Tool>, all: map<string, Tool>) {
    forall k :: 0 <= k < |ts| ==> ts[k].name in all && all[ts[k].name] == ts[k]
  }

  /** Selecting tools by their own names picks exactly those tools, none unknown. */
  lemma {:induction false} SelectingNamesPicksTools(ts: seq<Tool>, all: map<string, Tool>)
    requires Consistent(ts, all)
    ensures KnownTools(NamesOf(ts), all) == ts
    ensures UnknownNames(NamesOf(ts), all) == []
    decreases |ts|
  {
    if ts != [] {
      var init := ts[..|ts| - 1];
      assert NamesOf(ts)[..|ts| - 1] == NamesOf(init);
      SelectingNamesPicksTools(init, all);
      assert ts == init + [ts[|ts| - 1]];
    }
  }

  // ----- The menu -----

  /** The catalogue tools the filter accepts, in catalogue order. */
  function Offered(tools: seq<Tool>, params: InstallParams, sys: SystemInfo): (r: seq<Tool>)
    ensures forall t :: t in r <==> t in tools && Matches(params, t, sys)
  {
    if tools == [] then []
    else (if Matches(params, tools[0], sys) then [tools[0]] else []) + Offered(tools[1..], params, sys)
  }

  /** The offered tools neither recorded as installed nor found on the `PATH`. */
  function NotInstalled(tools: seq<Tool>, installed: set<string>, which: string -> bool): (r: seq<Tool>)
    ensures forall t :: t in r <==> t in tools && t.name !in installed && !which(t.binary)
  {
    if tools == [] then []
    else
      (if tools[0].name !in installed && !which(tools[0].binary) then [tools[0]] else [])
      + NotInstalled(tools[1..], installed, which)
  }

  /** The search: the query is in the lower-cased name or in one of the tags as written. */
  function SearchMatches(tools: seq<Tool>, query: string): (r: seq<Tool>)
    ensures forall t :: t in r <==> t in tools && (Contains(Lower(t.name), query) || exists tag :: tag in t.tags && Contains(tag, query))
  {
    if tools == [] then []
    else
      var t := tools[0];
      (if Contains(Lower(t.name), query) || exists tag :: tag in t.tags && Contains(tag, query) then [t] else [])
      + SearchMatches(tools[1..], query)
  }

  /** How an visit to the install menu ends. */
  datatype MenuOutcome =
    | NoMatch
    | AllInstalled
    | NoSelection
    | Reconfigured
    | Searched(matches: seq<Tool>)
    | NothingKnown(unknown: seq<string>)
    | Install(tools: seq<Tool>, unknown: seq<string>)

  /** The ranked list the menu offers: the not-installed tools by score, cut to the count limit. */
  function Offer(tools: seq<Tool>, installed: set<string>, which: string -> bool, sys: SystemInfo, params: InstallParams): seq<Tool> {
    Truncate(Rank(NotInstalled(Offered(tools, params, sys), installed, which), sys), params.maxCount)
  }

  /** What picking `names` ends in: the known tools go to the planner, unless there are none. */
  function Picked(names: seq<string>, all: map<string, Tool>): (out: MenuOutcome)
    ensures out.Install? || out.NothingKnown?
    ensures out.Install? <==> KnownTools(names, all) != []
    ensures out.Install? ==> out.tools == KnownTools(names, all) && out.unknown == UnknownNames(names, all)
    ensures out.NothingKnown? ==> out.unknown == UnknownNames(names, all)
  {
    var selected := KnownTools(names, all);
    if selected == [] then NothingKnown(UnknownNames(names, all)) else Install(selected, UnknownNames(names, all))
  }

  /**
   * `menu_install_tools` up to the planner: `tools` is the catalogue in its
   * order, `all` the catalogue by name, `raw` the selection typed and
   * `query` the search typed after "search". A "filter" answer ends in
   * `Reconfigured`; the caller then asks the filter questions again.
   */
  function MenuResult(tools: seq<Tool>, all: map<string, Tool>, installed: set<string>, which: string -> bool,
                      sys: SystemInfo, params: InstallParams, raw: string, query: string): (out: MenuOutcome)
    ensures out == NoMatch <==> Offered(tools, params, sys) == []
    ensures out == AllInstalled <==>
      Offered(tools, params, sys) != [] && NotInstalled(Offered(tools, params, sys), installed, which) == []
    ensures out.Searched? ==> out.matches == SearchMatches(Offered(tools, params, sys), Lower(Strip(query)))
    ensures out == NoSelection <==>
      NotInstalled(Offered(tools, params, sys), installed, which) != [] && Strip(raw) == ""
    ensures out.Install? || out.NothingKnown? ==>
      (exists names :: Choose(raw, Offer(tools, installed, which, sys, params)) == Names(names) && out == Picked(names, all))
  {
    var filtered := Offered(tools, params, sys);
    if filtered == [] then NoMatch
    else
      var pending := NotInstalled(filtered, installed, which);
      if pending == [] then AllInstalled
      else
        match Choose(raw, Truncate(Rank(pending, sys), params.maxCount))
        case NoInput => NoSelection
        case Reconfigure => Reconfigured
        case SearchFor => Searched(SearchMatches(filtered, Lower(Strip(query))))
        case Names(names) => Picked(names, all)
  }

  /** The menu method: the computation of `MenuResult`, with the selection loop of `ValidateSelection`. */
  method MenuInstallTools(tools: seq<Tool>, all: map<string, Tool>, installed: set<string>, which: string -> bool,
                          sys: SystemInfo, params: InstallParams, raw: string, query: string)
    returns (out: MenuOutcome)
    ensures out == MenuResult(tools, all, installed, which, sys, params, raw, query)
  {
    var filtered := Offered(tools, params, sys);
    if filtered == [] {
      return NoMatch;
    }
    var pending := NotInstalled(filtered, installed, which);
    if pending == [] {
      return AllInstalled;
    }
    var ranked := Truncate(Rank(pending, sys), params.maxCount);
    var choice := Choose(raw, ranked);
    match choice {
      case NoInput =>
        out := NoSelection;
      case Reconfigure =>
        out := Reconfigured;
      case SearchFor =>
        out := Searched(SearchMatches(filtered, Lower(Strip(query))));
      case Names(names) =>
        var selected, unknown := ValidateSelection(names, all);
        if selected == [] {
          out := NothingKnown(unknown);
        } else {
          out := Install(selected, unknown);
        }
    }
  }

  /** Every tool the menu hands to the planner is a catalogue entry of a name that was asked for. */
  lemma InstallsCatalogueTools(names: seq<string>, all: map<string, Tool>, t: Tool)
    requires t in KnownTools(names, all)
    ensures exists n :: n in names && n in all && all[n] == t
  {
    ValidationSplits(names, all);
  }

  /** The answer "all" asks for every offered tool. */
  lemma ChooseAll(ranked: seq<Tool>)
    ensures Choose("all", ranked) == Names(NamesOf(ranked))
  {
    StripCharsUnchanged("all", Whitespace);
    assert Lower("all") == "all";
  }

  /** Answering "all" hands the whole offered ranking to the planner when the catalogue is keyed by name. */
  lemma AllInstallsOffer(ranked: seq<Tool>, all: map<string, Tool>)
    requires ranked != [] && Consistent(ranked, all)
    ensures Picked(Choose("all", ranked).names, all) == Install(ranked, [])
  {
    ChooseAll(ranked);
    SelectingNamesPicksTools(ranked, all);
  }
}
