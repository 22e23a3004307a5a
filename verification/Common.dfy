/** Small definitions that several components share. */
module Common {

  datatype Option<+T> = None | Some(value: T)

  /** Is `sub` a substring of `s`? */
  predicate Contains(s: string, sub: string) {
    sub <= s || (s != [] && Contains(s[1..], sub))
  }

  /** The text with `v` somewhere in it. */
  ghost predicate SaidIn(text: string, v: string) {
    exists before: string, after: string :: text == before + v + after
  }

  lemma {:induction false} ContainsIsSaid(text: string, v: string)
    ensures Contains(text, v) <==> SaidIn(text, v)
  {
    if v <= text {
      assert text == [] + v + text[|v|..];
    } else if text == [] {
    } else {
      var rest := text[1..];
      ContainsIsSaid(rest, v);
      if before, after :| text == before + v + after {
        assert before == [] ==> before + v + after == v + after;
        assert rest == before[1..] + v + after;
      }
      if before, after :| rest == before + v + after {
        assert text == ([text[0]] + before) + v + after;
      }
    }
  }

  function Pow2(n: nat): nat {
    if n == 0 then 1 else 2 * Pow2(n - 1)
  }

  function RMax(a: real, b: real): real {
    if a >= b then a else b
  }

  function RMin(a: real, b: real): real {
    if a <= b then a else b
  }
}
