/** The helpers of app/utils.py: key masking for display, token extraction
    from an upstream reply, and the choice of provider keys that are still
    under their limits, least loaded first. */
module Utils {
  import opened Common
  import opened Json
  import opened Text
  import opened Records

  // ------------------------------------------------------------ mask_key

  /** The displayed form of a key: its first and last four characters around
      `****`, or just `****` for a key too short to show any of it. */
  function MaskKey(k: string): (r: string)
    ensures |k| < 8 ==> r == "****"
    ensures |k| >= 8 ==> |r| == 12 && r[..4] == k[..4] && r[4..8] == "****" && r[8..] == k[|k| - 4..]
  {
    if |k| < 8 then "****" else k[..4] + "****" + k[|k| - 4..]
  }

  /** The mask reveals nothing but the outer four characters on each side:
      two keys that agree there are shown identically. */
  lemma MaskHidesMiddle(k1: string, k2: string)
    requires |k1| >= 8 && |k2| >= 8
    requires k1[..4] == k2[..4] && k1[|k1| - 4..] == k2[|k2| - 4..]
    ensures MaskKey(k1) == MaskKey(k2)
  {
  }

  /** A masked key is 4 characters long (short key) or 12 (long key), and
      at most 8 characters of the key are shown. */
  lemma MaskLength(k: string)
    ensures |MaskKey(k)| == (if |k| < 8 then 4 else 12)
    ensures |MaskKey(k)| - 4 <= 8
  {
  }

  // ------------------------------------------------------- extract_tokens

  /** (prompt, completion, total) token counts. */
  datatype Tokens = Tokens(prompt: int, completion: int, total: int)

  const NoTokens := Tokens(0, 0, 0)

  /** `extract_tokens(data)`: the usage counts of an upstream JSON reply,
      or zeros when there is no usage block or reading it raises. */
  function ExtractTokens(data: Json): (t: Tokens)
    ensures !data.JObj? ==> t == NoTokens
    ensures data.JObj? && !Truthy(Field(data.fields, "usage")) ==> t == NoTokens
    ensures data.JObj? && Truthy(Field(data.fields, "usage")) && !Field(data.fields, "usage").JObj? ==> t == NoTokens
    ensures data.JObj? && Truthy(Field(data.fields, "usage")) && Field(data.fields, "usage").JObj? ==>
      var u := Field(data.fields, "usage").fields;
      var pt := IntOrZero(u, "prompt_tokens");
      var ct := IntOrZero(u, "completion_tokens");
      && (pt.None? || ct.None? ==> t == NoTokens)
      && (pt.Some? && ct.Some? ==>
            var tt := PyInt(Or(Field(u, "total_tokens"), JInt(pt.value + ct.value)));
            && (tt.None? ==> t == NoTokens)
            && (tt.Some? ==> t == Tokens(pt.value, ct.value, tt.value)))
  {
    if !data.JObj? then NoTokens
    else
      var u := Field(data.fields, "usage");
      if !Truthy(u) then NoTokens
      else if !u.JObj? then NoTokens
      else
        var pt := IntOrZero(u.fields, "prompt_tokens");
        var ct := IntOrZero(u.fields, "completion_tokens");
        if pt.None? || ct.None? then NoTokens
        else
          match PyInt(Or(Field(u.fields, "total_tokens"), JInt(pt.value + ct.value)))
          case None => NoTokens
          case Some(tt) => Tokens(pt.value, ct.value, tt)
  }

  /** A usage block with integer counts: a missing or zero total is replaced
      by prompt + completion, any other total is returned unchanged. */
  lemma ExtractTokensTotal(data: Json, pt: int, ct: int)
    requires data.JObj? && "usage" in data.fields && data.fields["usage"].JObj?
    requires var u := data.fields["usage"].fields;
      Field(u, "prompt_tokens") == JInt(pt) && Field(u, "completion_tokens") == JInt(ct)
    ensures var u := data.fields["usage"].fields;
      var tt := Field(u, "total_tokens");
      && (!Truthy(tt) ==> ExtractTokens(data) == Tokens(pt, ct, pt + ct))
      && (tt.JInt? && tt.i != 0 ==> ExtractTokens(data) == Tokens(pt, ct, tt.i))
      && (tt.JStr? && PyIntOfString(tt.s).None? && tt.s != "" ==> ExtractTokens(data) == NoTokens)
  {
    var u := data.fields["usage"];
    assert "prompt_tokens" in u.fields;
  }

  // -------------------------------------------------------- eligible_keys

  /** An enabled provider key with its usage counts: requests logged in the
      last minute and tokens logged today (query results, here inputs). */
  datatype ProviderLoad = ProviderLoad(key: ProviderKey, countMin: int, tokensToday: int)

  /** A nonzero limit that has been reached. Python treats any nonzero limit
      as set, so a negative limit is always reached. */
  predicate OverLimit(l: ProviderLoad) {
    || (l.key.rateLimitPerMin != 0 && l.countMin >= l.key.rateLimitPerMin)
    || (l.key.tokenLimitPerDay != 0 && l.tokensToday >= l.key.tokenLimitPerDay)
  }

  /** The sort key `(count_min, tokens_today)`, compared lexicographically. */
  predicate LoadLe(a: ProviderLoad, b: ProviderLoad) {
    a.countMin < b.countMin || (a.countMin == b.countMin && a.tokensToday <= b.tokensToday)
  }

  predicate SortedByLoad(s: seq<ProviderLoad>) {
    forall i, j :: 0 <= i < j < |s| ==> LoadLe(s[i], s[j])
  }

  /** The enabled providers that are not over a limit, in query order. */
  function Admissible(loads: seq<ProviderLoad>): (r: seq<ProviderLoad>)
    ensures |r| <= |loads|
    ensures forall x :: x in r <==> x in loads && x.key.enabled && !OverLimit(x)
  {
    if |loads| == 0 then []
    else
      var rest := Admissible(loads[..|loads| - 1]);
      var x := loads[|loads| - 1];
      assert loads == loads[..|loads| - 1] + [x];
      if x.key.enabled && !OverLimit(x) then rest + [x] else rest
  }

  /** Inserts `x` into a sorted list after every element that does not sort
      strictly after it, so equal keys keep their order (Python's sort is stable). */
  function InsertByLoad(x: ProviderLoad, s: seq<ProviderLoad>): (r: seq<ProviderLoad>)
    requires SortedByLoad(s)
    ensures SortedByLoad(r)
    ensures multiset(r) == multiset(s) + multiset{x}
  {
    if |s| == 0 then [x]
    else if !LoadLe(s[0], x) then
      assert SortedByLoad([x] + s) by { PrependSorted(x, s); }
      [x] + s
    else
      var t := InsertByLoad(x, s[1..]);
      assert s == [s[0]] + s[1..];
      assert SortedByLoad([s[0]] + t) by { PrependAfterInsert(x, s, t); }
      [s[0]] + t
  }

  lemma PrependSorted(x: ProviderLoad, s: seq<ProviderLoad>)
    requires SortedByLoad(s) && |s| > 0 && LoadLe(x, s[0])
    ensures SortedByLoad([x] + s)
  {
    var r := [x] + s;
    forall i, j | 0 <= i < j < |r|
      ensures LoadLe(r[i], r[j])
    {
      if i == 0 {
        assert LoadLe(s[0], r[j]) || j == 1;
      }
    }
  }

  lemma PrependAfterInsert(x: ProviderLoad, s: seq<ProviderLoad>, t: seq<ProviderLoad>)
    requires SortedByLoad(s) && |s| > 0 && LoadLe(s[0], x)
    requires SortedByLoad(t) && multiset(t) == multiset(s[1..]) + multiset{x}
    ensures SortedByLoad([s[0]] + t)
  {
    var r := [s[0]] + t;
    forall i, j | 0 <= i < j < |r|
      ensures LoadLe(r[i], r[j])
    {
      if i == 0 {
        var y := t[j - 1];
        assert y in multiset(t);
        if y != x {
          assert y in multiset(s[1..]);
          var k :| 0 <= k < |s[1..]| && s[1..][k] == y;
          assert s[k + 1] == y;
        }
      }
    }
  }

  /** The sort key of a provider. */
  function LoadKey(l: ProviderLoad): (int, int) {
    (l.countMin, l.tokensToday)
  }

  /** The entries of `s` whose sort key is `k`, in their order in `s`. */
  function WithKey(s: seq<ProviderLoad>, k: (int, int)): (r: seq<ProviderLoad>)
    ensures |r| <= |s|
  {
    if |s| == 0 then []
    else (if LoadKey(s[0]) == k then [s[0]] else []) + WithKey(s[1..], k)
  }

  lemma {:induction false} WithKeyAppend(s: seq<ProviderLoad>, x: ProviderLoad, k: (int, int))
    ensures WithKey(s + [x], k) == WithKey(s, k) + (if LoadKey(x) == k then [x] else [])
  {
    if |s| > 0 {
      assert (s + [x])[1..] == s[1..] + [x];
      WithKeyAppend(s[1..], x, k);
    }
  }

  /** Entries that all sort strictly after `x` have none with its key. */
  lemma {:induction false} NoneWithKeyAbove(x: ProviderLoad, s: seq<ProviderLoad>)
    requires forall i :: 0 <= i < |s| ==> !LoadLe(s[i], x)
    ensures WithKey(s, LoadKey(x)) == []
  {
    if |s| > 0 {
      NoneWithKeyAbove(x, s[1..]);
    }
  }

  lemma WithKeyCons(y: ProviderLoad, t: seq<ProviderLoad>, k: (int, int))
    ensures WithKey([y] + t, k) == (if LoadKey(y) == k then [y] else []) + WithKey(t, k)
  {
    assert ([y] + t)[0] == y && ([y] + t)[1..] == t;
  }

  /** Inserting `x` puts it after every entry with its key and moves no
      other entry relative to those with the same key. */
  lemma {:induction false} InsertWithKey(x: ProviderLoad, s: seq<ProviderLoad>, k: (int, int))
    requires SortedByLoad(s)
    ensures WithKey(InsertByLoad(x, s), k) == WithKey(s, k) + (if LoadKey(x) == k then [x] else [])
  {
    if |s| == 0 {
      assert InsertByLoad(x, s) == [x] + s;
      WithKeyCons(x, s, k);
    } else if !LoadLe(s[0], x) {
      InsertInFront(x, s, k);
    } else {
      var t := InsertByLoad(x, s[1..]);
      assert InsertByLoad(x, s) == [s[0]] + t;
      InsertWithKey(x, s[1..], k);
      WithKeyCons(s[0], t, k);
      assert s == [s[0]] + s[1..];
      WithKeyCons(s[0], s[1..], k);
    }
  }

  /** `x` inserted before the first entry, which sorts after it: no entry
      of `s` has its key. */
  lemma InsertInFront(x: ProviderLoad, s: seq<ProviderLoad>, k: (int, int))
    requires SortedByLoad(s) && |s| > 0 && !LoadLe(s[0], x)
    ensures WithKey([x] + s, k) == WithKey(s, k) + (if LoadKey(x) == k then [x] else [])
  {
    WithKeyCons(x, s, k);
    if LoadKey(x) == k {
      forall i | 0 <= i < |s| ensures !LoadLe(s[i], x) {
        if i > 0 { assert LoadLe(s[0], s[i]); }
      }
      NoneWithKeyAbove(x, s);
    }
  }

  /** A stable insertion sort by `(count_min, tokens_today)`: sorted, a
      permutation, and providers with equal loads keep their query order. */
  function SortByLoad(s: seq<ProviderLoad>): (r: seq<ProviderLoad>)
    ensures SortedByLoad(r)
    ensures multiset(r) == multiset(s)
    ensures forall k :: WithKey(r, k) == WithKey(s, k)
  {
    if |s| == 0 then []
    else
      var init := s[..|s| - 1];
      var x := s[|s| - 1];
      assert s == init + [x];
      var sorted := SortByLoad(init);
      assert forall k :: WithKey(InsertByLoad(x, sorted), k) == WithKey(s, k) by {
        forall k ensures WithKey(InsertByLoad(x, sorted), k) == WithKey(s, k) {
          InsertWithKey(x, sorted, k);
          WithKeyAppend(init, x, k);
        }
      }
      InsertByLoad(x, sorted)
  }

  /** `eligible_keys()` before the final projection to keys. */
  function EligibleLoads(loads: seq<ProviderLoad>): (r: seq<ProviderLoad>)
    ensures SortedByLoad(r)
    ensures multiset(r) == multiset(Admissible(loads))
    ensures forall x :: x in r <==> x in loads && x.key.enabled && !OverLimit(x)
  {
    var r := SortByLoad(Admissible(loads));
    assert forall x :: x in r <==> x in multiset(r);
    r
  }

  /** `eligible_keys()`: the usable provider keys, least loaded first. */
  function EligibleKeys(loads: seq<ProviderLoad>): (keys: seq<ProviderKey>)
    ensures |keys| == |EligibleLoads(loads)|
    ensures forall i :: 0 <= i < |keys| ==> keys[i] == EligibleLoads(loads)[i].key && keys[i].enabled
  {
    var r := EligibleLoads(loads);
    seq(|r|, i requires 0 <= i < |r| => r[i].key)
  }

  /** A provider is dropped exactly when it is disabled or over a limit. */
  lemma EligibleIff(loads: seq<ProviderLoad>, i: nat)
    requires i < |loads| && loads[i].key.enabled
    ensures loads[i] in EligibleLoads(loads) <==> !OverLimit(loads[i])
  {
  }

  /** Column defaults (both limits 0) never exclude a provider. */
  lemma DefaultProviderNeverOverLimit(id: int, name: string, apiKey: string, countMin: int, tokensToday: int)
    ensures !OverLimit(ProviderLoad(NewProviderKey(id, name, apiKey), countMin, tokensToday))
  {
  }
}
