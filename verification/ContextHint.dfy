/** The `NNNk` token-window hint in a DeepSeek model id (crates/core/src/chat.rs).
    Only ASCII is looked at, so a `char` may stand for a byte or for a scalar value. */
module ContextHint {
  import opened Text

  /** `parse::<u32>` of a digit run. */
  function ParseU32(digits: string): Option<nat>
    requires AllDigits(digits)
  {
    if DigitsValue(digits) < 0x1_0000_0000 then Some(DigitsValue(digits)) else None
  }

  /** `s[a..b]` is a run of digits with a value from 8 to 1024, followed by `k`, standing as a word of its own. */
  predicate IsHint(s: string, a: nat, b: nat) {
    && a < b < |s|
    && AllDigits(s[a..b])
    && s[b] == 'k'
    && (a == 0 || !IsAsciiAlnum(s[a - 1]))
    && (b + 1 == |s| || !IsAsciiAlnum(s[b + 1]))
    && 8 <= DigitsValue(s[a..b]) <= 1024
  }

  ghost predicate IsLeftmostHint(s: string, a: nat, b: nat) {
    IsHint(s, a, b) && forall c: nat, d: nat :: IsHint(s, c, d) ==> a <= c
  }

  ghost predicate NoHint(s: string) {
    forall a: nat, b: nat :: !IsHint(s, a, b)
  }

  lemma HintDigits(s: string, a: nat, b: nat)
    requires a < b <= |s| && AllDigits(s[a..b])
    ensures forall i :: a <= i < b ==> IsDigit(s[i])
  {
    assert forall i :: a <= i < b ==> s[i] == s[a..b][i - a];
  }

  /** Hints that start at one place are one hint. */
  lemma HintEndIsUnique(s: string, a: nat, b: nat, c: nat)
    requires IsHint(s, a, b) && IsHint(s, a, c)
    ensures b == c
  {
    HintDigits(s, a, b);
    HintDigits(s, a, c);
  }

  /** At most one hint is leftmost, so the window it names is determined. */
  lemma LeftmostHintIsUnique(s: string, a: nat, b: nat, c: nat, d: nat)
    requires IsLeftmostHint(s, a, b) && IsLeftmostHint(s, c, d)
    ensures a == c && b == d
  {
    hide IsHint;
    assert a <= c && c <= a;
    HintEndIsUnique(s, a, b, d);
  }

  /** A hint inside or across a maximal run of digits is that run. */
  lemma HintIsMaximalRun(s: string, start: nat, end: nat, a: nat, b: nat)
    requires start < end <= |s| && AllDigits(s[start..end]) && (end == |s| || !IsDigit(s[end]))
    requires IsHint(s, a, b) && start <= a < end
    ensures a == start && b == end
  {
    HintDigits(s, start, end);
    HintDigits(s, a, b);
  }

  lemma DigitsGrow(s: string, start: nat, i: nat)
    requires start <= i < |s| && AllDigits(s[start..i]) && IsDigit(s[i])
    ensures AllDigits(s[start..i + 1])
  {
    var grown := s[start..i + 1];
    forall k | 0 <= k < |grown| ensures IsDigit(grown[k]) {
      assert k < i - start ==> grown[k] == s[start..i][k];
    }
  }

  /** `deepseek_context_window_hint`. */
  method DeepseekContextWindowHint(s: string) returns (tokens: Option<nat>)
    ensures tokens.None? <==> NoHint(s)
    ensures tokens.Some? ==>
              exists a: nat, b: nat :: IsLeftmostHint(s, a, b) && tokens.value == 1000 * DigitsValue(s[a..b])
  {
    var i := 0;
    while i < |s|
      invariant 0 <= i <= |s|
      invariant forall a: nat, b: nat :: IsHint(s, a, b) ==> i <= a
      invariant 0 < i < |s| && IsDigit(s[i]) ==> !IsDigit(s[i - 1])
    {
      if !IsDigit(s[i]) {
        assert forall a: nat, b: nat :: IsHint(s, a, b) ==> s[a] == s[a..b][0];
        i := i + 1;
        continue;
      }
      var start := i;
      while i < |s| && IsDigit(s[i])
        invariant start <= i <= |s|
        invariant AllDigits(s[start..i])
        invariant i == start ==> IsDigit(s[i])
        decreases |s| - i
      {
        DigitsGrow(s, start, i);
        i := i + 1;
      }
      forall a: nat, b: nat | IsHint(s, a, b) && a < i ensures a == start && b == i {
        HintIsMaximalRun(s, start, i, a, b);
      }
      if i >= |s| || s[i] != 'k' {
        continue;
      }
      var beforeOk := start == 0 || !IsAsciiAlnum(s[start - 1]);
      var afterOk := i + 1 >= |s| || !IsAsciiAlnum(s[i + 1]);
      if !beforeOk || !afterOk {
        continue;
      }
      var kiloTokens := ParseU32(s[start..i]);
      if kiloTokens.Some? && 8 <= kiloTokens.value <= 1024 {
        assert IsLeftmostHint(s, start, i);
        return Some(if kiloTokens.value * 1000 < 0x1_0000_0000 then kiloTokens.value * 1000 else 0xFFFF_FFFF);
      }
    }
    assert forall a: nat, b: nat :: IsHint(s, a, b) ==> a < |s|;
    return None;
  }

  /** `context_window_for_model`, given Unicode lower-casing and the static table's window for a model, if it knows
      the family. A hint wins over the table, and only in an id that names DeepSeek. */
  method ContextWindowForModel(model: string, toLowercase: string -> string, familyWindow: string -> Option<nat>)
    returns (window: Option<nat>)
    ensures var lower := toLowercase(model);
            && (!Contains(lower, "deepseek") || NoHint(lower) ==> window == familyWindow(model))
            && (Contains(lower, "deepseek") && !NoHint(lower) ==>
                  exists a: nat, b: nat ::
                    IsLeftmostHint(lower, a, b) && window == Some(1000 * DigitsValue(lower[a..b])))
  {
    var lower := toLowercase(model);
    if Contains(lower, "deepseek") {
      var explicit := DeepseekContextWindowHint(lower);
      if explicit.Some? {
        return explicit;
      }
    }
    return familyWindow(model);
  }

  /** A number written out in decimal, standing as a word of its own with a `k` behind it, is a hint exactly when it is
      from 8 to 1024. */
  lemma WrittenNumberIsHintIff(before: string, n: nat, after: string)
    requires before == "" || !IsAsciiAlnum(before[|before| - 1])
    requires after == "" || !IsAsciiAlnum(after[0])
    ensures IsHint(before + Digits(n) + "k" + after, |before|, |before| + |Digits(n)|) <==> 8 <= n <= 1024
  {
    hide Digits, DigitsValue, IsAsciiAlnum;
    var digits := Digits(n);
    var s := before + digits + "k" + after;
    DigitsRoundTrip(n);
    assert s[|before|..|before| + |digits|] == digits;
    assert |before| > 0 ==> s[|before| - 1] == before[|before| - 1];
    assert |after| > 0 ==> s[|before| + |digits| + 1] == after[0];
  }
}
