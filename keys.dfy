/** Event keys: how an event's time is printed, how its dedup key is built
    and normalised, and how the persisted key list is read back. */
module Keys {
  import opened Feed
  import Strings

  /** `normalizar_chave`: the key with "Penalty" replaced by itself, lower-cased. */
  function Normalize(key: string): string
  {
    Strings.Lower(Strings.Replace(key, "Penalty", "Penalty"))
  }

  /** A key that normalising leaves as it is. */
  predicate IsNormal(key: string)
  {
    Normalize(key) == key
  }

  /** The `replace` in `normalizar_chave` is a no-op: normalising is lower-casing. */
  lemma NormalizeIsLower(key: string)
    ensures Normalize(key) == Strings.Lower(key)
  {
    Strings.ReplaceByItself(key, "Penalty");
  }

  lemma NormalizeIdempotent(key: string)
    ensures Normalize(Normalize(key)) == Normalize(key)
    ensures IsNormal(Normalize(key))
  {
    NormalizeIsLower(key);
    NormalizeIsLower(Normalize(key));
    Strings.LowerIdempotent(key);
  }

  /** `formatar_tempo`: the minute (or "?" when the field is absent) and a
      quote, then "+<extra>'" when the stoppage-time field is truthy. */
  function FormatTime(ev: Event): string
  {
    var minute := FieldText(ev.minute, "?");
    minute + "'" + (if Truthy(ev.extra) then "+" + Display(ev.extra.value) + "'" else "")
  }

  /** `criar_chave_evento`: "<fixture>_<addition>_<time>", normalised. Every
      key it builds is a fixed point of normalisation. */
  function EventKey(fixture: string, addition: string, time: string): (key: string)
    ensures IsNormal(key)
    ensures key == Strings.Lower(fixture + "_" + addition + "_" + time)
  {
    NormalizeIdempotent(fixture + "_" + addition + "_" + time);
    NormalizeIsLower(fixture + "_" + addition + "_" + time);
    Normalize(fixture + "_" + addition + "_" + time)
  }

  /** `carregar_eventos`: a missing file or one that is not valid JSON (None)
      gives the empty set; otherwise the set holds exactly the normalised
      stored keys. */
  function LoadKeys(file: Option<seq<string>>): (keys: set<string>)
    ensures file.None? ==> keys == {}
    ensures forall k :: k in keys ==> IsNormal(k)
    ensures file.Some? ==> forall k :: k in file.value ==> Normalize(k) in keys
    ensures file.Some? ==> forall k :: k in keys ==> exists s :: s in file.value && Normalize(s) == k
  {
    match file
    case None => {}
    case Some(stored) =>
      forall k | k in stored ensures IsNormal(Normalize(k)) { NormalizeIdempotent(k); }
      set k | k in stored :: Normalize(k)
  }

  /** `salvar_eventos` writes the set out as a list in some order; loading
      that list back gives the same set, as long as its keys are normal. */
  lemma SaveThenLoad(keys: set<string>, written: seq<string>)
    requires forall k :: k in keys ==> IsNormal(k)
    requires forall k :: k in written <==> k in keys
    ensures LoadKeys(Some(written)) == keys
  {
    var loaded := LoadKeys(Some(written));
    forall k | k in loaded ensures k in keys {
      var w :| w in written && Normalize(w) == k;
      assert IsNormal(w);
    }
    forall k | k in keys ensures k in loaded {
      assert Normalize(k) == k;
    }
  }

  // ------------------------------------------------------------- the clock

  /** An event timed by whole minutes: a non-negative minute and a stoppage
      time that is absent, null or a non-negative number. */
  predicate OnTheClock(ev: Event)
  {
    ev.minute.Some? && ev.minute.value.Num? && ev.minute.value.n >= 0
    && (ev.extra == None || ev.extra == Some(Null)
        || (ev.extra.Some? && ev.extra.value.Num? && ev.extra.value.n >= 0))
  }

  /** Minute and stoppage time as numbers, a falsy stoppage time counting as 0. */
  function Clock(ev: Event): (int, int)
    requires OnTheClock(ev)
  {
    (ev.minute.value.n, if Truthy(ev.extra) then ev.extra.value.n else 0)
  }

  predicate NoQuote(s: string)
  {
    forall i :: 0 <= i < |s| ==> s[i] != '\''
  }

  /** The first quote of `a + "'" + x` is the one after `a`. */
  lemma FirstQuote(a: string, x: string)
    requires NoQuote(a)
    ensures (a + "'" + x)[|a|] == '\''
    ensures forall i :: 0 <= i < |a| ==> (a + "'" + x)[i] != '\''
  {
  }

  lemma SplitAtQuote(a: string, x: string, b: string, y: string)
    requires NoQuote(a) && NoQuote(b)
    requires a + "'" + x == b + "'" + y
    ensures a == b && x == y
  {
    var s := a + "'" + x;
    FirstQuote(a, x);
    FirstQuote(b, y);
    assert |a| == |b|;
    assert a == s[..|a|];
    assert b == (b + "'" + y)[..|b|];
    assert x == s[|a| + 1..];
    assert y == (b + "'" + y)[|b| + 1..];
  }

  lemma DigitsHaveNoQuote(n: nat)
    ensures NoQuote(Strings.Digits(n))
  {
  }

  /** Two whole-minute events print the same time exactly when they happen
      at the same minute and stoppage time. */
  lemma FormatTimeSeparatesClocks(ev1: Event, ev2: Event)
    requires OnTheClock(ev1) && OnTheClock(ev2)
    ensures FormatTime(ev1) == FormatTime(ev2) <==> Clock(ev1) == Clock(ev2)
  {
    var m1, m2 := ev1.minute.value.n, ev2.minute.value.n;
    var d1, d2 := Strings.Digits(m1), Strings.Digits(m2);
    var x1 := if Truthy(ev1.extra) then "+" + Display(ev1.extra.value) + "'" else "";
    var x2 := if Truthy(ev2.extra) then "+" + Display(ev2.extra.value) + "'" else "";
    assert FormatTime(ev1) == d1 + "'" + x1;
    assert FormatTime(ev2) == d2 + "'" + x2;
    if FormatTime(ev1) == FormatTime(ev2) {
      DigitsHaveNoQuote(m1);
      DigitsHaveNoQuote(m2);
      SplitAtQuote(d1, x1, d2, x2);
      Strings.DigitsInjective(m1, m2);
      if Truthy(ev1.extra) && Truthy(ev2.extra) {
        var e1, e2 := ev1.extra.value.n, ev2.extra.value.n;
        var s1, s2 := Strings.Digits(e1), Strings.Digits(e2);
        assert x1 == "+" + s1 + "'" && x2 == "+" + s2 + "'";
        assert s1 == x1[1..|x1| - 1];
        assert s2 == x2[1..|x2| - 1];
        Strings.DigitsInjective(e1, e2);
      }
    }
  }

  /** A minute with no stoppage time prints as "<minute>'"; an absent minute as "?'". */
  lemma FormatTimeExamples(ev: Event)
    ensures ev.minute == Some(Num(43)) && !Truthy(ev.extra) ==> FormatTime(ev) == "43'"
    ensures ev.minute == Some(Num(45)) && ev.extra == Some(Num(2)) ==> FormatTime(ev) == "45'+2'"
    ensures ev.minute == None && !Truthy(ev.extra) ==> FormatTime(ev) == "?'"
  {
    assert Strings.Digits(43) == "43" by {
      assert Strings.Digits(4) == "4";
    }
    assert Strings.Digits(45) == "45" by {
      assert Strings.Digits(4) == "4";
    }
  }
}
