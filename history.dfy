/** The rolling record of past nags (`INag`, src/gpt-nagger.ts:166-170) and
    the rule that adds to it (src/gpt-nagger.ts:55-61). */
module History {
  import opened Js

  /** How many past nags are kept. */
  const CAPACITY: nat := 3

  /** One nag that was spoken: when it was recorded (a clock reading, in
      milliseconds), what was said, and the screenshot it was about. */
  datatype Nag = Nag(date: int, text: string, screenshotDataUri: string)

  /** `s.slice(-n)` for `n > 0` applied only when `s` is longer than `n`:
      the last `n` elements, or all of `s` when it is not longer. */
  function KeepLast<T>(s: seq<T>, n: nat): (r: seq<T>)
    ensures |r| == if |s| <= n then |s| else n
    ensures r == s[|s| - |r|..]
  {
    if |s| > n then s[|s| - n..] else s
  }

  /** The history after a nag that returned `text` (`null` when the reply
      was the all-clear) and `screenshot`: a record is pushed only when the
      text is truthy, and then the list is cut to its last three entries. */
  function Record(history: seq<Nag>, text: Option<string>, screenshot: string, date: int): seq<Nag>
  {
    if text.Some? && text.value != "" then
      KeepLast(history + [Nag(date, text.value, screenshot)], CAPACITY)
    else
      history
  }

  /** A falsy text leaves the history as it was; a truthy one puts exactly
      one record carrying it at the end, keeps at most three, and keeps the
      older survivors in their order. */
  lemma RecordSpec(history: seq<Nag>, text: Option<string>, screenshot: string, date: int)
    requires |history| <= CAPACITY
    ensures var r := Record(history, text, screenshot, date);
      && |r| <= CAPACITY
      && (text.None? || text.value == "" ==> r == history)
      && (text.Some? && text.value != "" ==>
            && r[|r| - 1] == Nag(date, text.value, screenshot)
            && |r| == (if |history| < CAPACITY then |history| + 1 else CAPACITY)
            && r[..|r| - 1] == history[|history| + 1 - |r|..])
  {
    if text.Some? && text.value != "" {
      var appended := history + [Nag(date, text.value, screenshot)];
      var r := KeepLast(appended, CAPACITY);
      assert r[..|r| - 1] == appended[|appended| - |r|..|appended| - 1];
      assert appended[..|history|] == history;
    }
  }

  /** Every record in `history` carries a truthy text. */
  predicate AllSpoken(history: seq<Nag>)
  {
    forall k :: 0 <= k < |history| ==> history[k].text != ""
  }

  /** Only spoken records enter the history. */
  lemma RecordKeepsSpoken(history: seq<Nag>, text: Option<string>, screenshot: string, date: int)
    requires AllSpoken(history)
    ensures AllSpoken(Record(history, text, screenshot, date))
  {
    if text.Some? && text.value != "" {
      var appended := history + [Nag(date, text.value, screenshot)];
      assert AllSpoken(appended) by {
        forall k | 0 <= k < |appended| ensures appended[k].text != "" {
          if k < |history| {
            assert appended[k] == history[k];
          }
        }
      }
      var r := KeepLast(appended, CAPACITY);
      forall k | 0 <= k < |r| ensures r[k].text != "" {
        assert r[k] == appended[|appended| - |r| + k];
      }
    }
  }

  /** Cutting to the last `n` before appending changes nothing once the
      result is cut again: the history is always the last three of
      everything ever appended. */
  lemma KeepLastConcat<T>(s: seq<T>, t: seq<T>, n: nat)
    ensures KeepLast(KeepLast(s, n) + t, n) == KeepLast(s + t, n)
  {
    var a := KeepLast(s, n) + t;
    var b := s + t;
    var ra, rb := KeepLast(a, n), KeepLast(b, n);
    assert |ra| == |rb|;
    forall k | 0 <= k < |ra| ensures ra[k] == rb[k] {
      var ia, ib := |a| - |ra| + k, |b| - |rb| + k;
      assert ra[k] == a[ia] && rb[k] == b[ib];
      if ia >= |KeepLast(s, n)| {
        assert a[ia] == t[ia - |KeepLast(s, n)|] == b[ib];
      } else {
        assert a[ia] == KeepLast(s, n)[ia] == s[|s| - |KeepLast(s, n)| + ia];
      }
    }
  }

  /** The nags that fired among a sequence of nag results, in order. */
  function Fired(results: seq<(Option<string>, string, int)>): (r: seq<Nag>)
    ensures |r| <= |results|
    ensures forall k :: 0 <= k < |r| ==> r[k].text != ""
  {
    if results == [] then []
    else
      var (text, screenshot, date) := results[|results| - 1];
      Fired(results[..|results| - 1])
        + (if text.Some? && text.value != "" then [Nag(date, text.value, screenshot)] else [])
  }

  /** The nags that fire over two stretches of results are those of the
      first followed by those of the second. */
  lemma {:induction false} FiredAppend(a: seq<(Option<string>, string, int)>, b: seq<(Option<string>, string, int)>)
    ensures Fired(a + b) == Fired(a) + Fired(b)
    decreases |b|
  {
    if b == [] {
      assert a + b == a;
    } else {
      assert (a + b)[..|a + b| - 1] == a + b[..|b| - 1];
      assert (a + b)[|a + b| - 1] == b[|b| - 1];
      FiredAppend(a, b[..|b| - 1]);
    }
  }

  /** Recording one result is keeping the last three after appending what
      fired. */
  lemma RecordIsFired(history: seq<Nag>, text: Option<string>, screenshot: string, date: int)
    requires |history| <= CAPACITY
    ensures Record(history, text, screenshot, date) == KeepLast(history + Fired([(text, screenshot, date)]), CAPACITY)
  {
    var one := [(text, screenshot, date)];
    assert one[..0] == [];
    if !(text.Some? && text.value != "") {
      assert history + Fired(one) == history;
    }
  }

  /** The history after a run of nags: each result recorded in turn. */
  function RecordAll(history: seq<Nag>, results: seq<(Option<string>, string, int)>): seq<Nag>
  {
    if results == [] then history
    else
      var (text, screenshot, date) := results[|results| - 1];
      Record(RecordAll(history, results[..|results| - 1]), text, screenshot, date)
  }

  /** After any number of nags, the history holds the last three of the
      records that fired (older history first), in the order they fired. */
  lemma {:induction false} RecordAllKeepsRecent(history: seq<Nag>, results: seq<(Option<string>, string, int)>)
    requires |history| <= CAPACITY
    ensures RecordAll(history, results) == KeepLast(history + Fired(results), CAPACITY)
  {
    if results == [] {
      assert history + Fired(results) == history;
    } else {
      var init := results[..|results| - 1];
      var (text, screenshot, date) := results[|results| - 1];
      RecordAllKeepsRecent(history, init);
      var before := history + Fired(init);
      if text.Some? && text.value != "" {
        var nag := Nag(date, text.value, screenshot);
        KeepLastConcat(before, [nag], CAPACITY);
        assert history + Fired(results) == before + [nag];
      } else {
        assert Fired(results) == Fired(init);
        assert |KeepLast(before, CAPACITY)| <= CAPACITY;
      }
    }
  }
}
