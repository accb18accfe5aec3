/**
 * `Vocalizer.mouth` of tools/synths/effects.js: a vowel picks the centre
 * frequencies of the three band-pass formant filters, and the filters glide
 * to them with a shared time constant.
 */
module Effects {
  import opened JsCore

  /** The centre frequencies, in hertz, of formant filters 1, 2 and 3. */
  datatype Formants = Formants(f1: int, f2: int, f3: int)

  /** The frequencies the three filters are built with. */
  const InitialFormants: Formants := Formants(270, 2300, 3000)

  /** The vowels of the `switch`, in order. */
  const Vowels: seq<string> := ["ee", "oo", "i", "e", "u", "a"]

  /** The `switch (vowel)` of `mouth`: the formants of a listed vowel. */
  function VowelFormants(vowel: string): Option<Formants>
  {
    if vowel == "ee" then Some(Formants(270, 2300, 3000))
    else if vowel == "oo" then Some(Formants(300, 870, 2250))
    else if vowel == "i" then Some(Formants(400, 2000, 2550))
    else if vowel == "e" then Some(Formants(530, 1850, 2500))
    else if vowel == "u" then Some(Formants(640, 1200, 2400))
    else if vowel == "a" then Some(Formants(660, 1700, 2400))
    else None
  }

  /** `frequency.setTargetAtTime(freq, start, timeConstant)` on formant
      filter number `filter`. */
  datatype FormantCall = FormantTarget(filter: nat, freq: int, start: real, timeConstant: JsNumber)

  /** `Math.max(time, 0.001)`, where an omitted `time` is 0.001. */
  function TimeConstant(time: Option<JsNumber>): (t: JsNumber)
    ensures time.None? ==> t == Finite(0.001)
    ensures t.NaN? <==> time == Some(NaN)
    ensures t.Finite? ==> t.r >= 0.001
    ensures t.Finite? && time.Some? && time.value.Finite? && time.value.r >= 0.001 ==> t == time.value
    ensures time.Some? && (time.value.NegInf? || (time.value.Finite? && time.value.r <= 0.001)) ==> t == Finite(0.001)
  {
    JsMax(if time.Some? then time.value else Finite(0.001), Finite(0.001))
  }

  /** `mouth(vowel, time)` at host time `now`: the three filter glides of a
      listed vowel, nothing for any other. */
  function Mouth(vowel: string, time: Option<JsNumber>, now: real): (calls: seq<FormantCall>)
    ensures VowelFormants(vowel).None? ==> calls == []
    ensures VowelFormants(vowel).Some? ==>
      var f := VowelFormants(vowel).value;
      |calls| == 3 && calls[0].freq == f.f1 && calls[1].freq == f.f2 && calls[2].freq == f.f3
    ensures forall k :: 0 <= k < |calls| ==>
      calls[k].filter == k + 1 && calls[k].start == now && calls[k].timeConstant == TimeConstant(time)
  {
    var t := TimeConstant(time);
    match VowelFormants(vowel)
    case None => []
    case Some(f) => [FormantTarget(1, f.f1, now, t), FormantTarget(2, f.f2, now, t), FormantTarget(3, f.f3, now, t)]
  }

  /** The filters start at the formants of `'ee'`. */
  lemma InitialIsEe()
    ensures VowelFormants("ee") == Some(InitialFormants)
  {
  }

  /** Exactly the six listed vowels set formants. */
  lemma ListedVowels(vowel: string)
    ensures VowelFormants(vowel).Some? <==> vowel in Vowels
  {
    assert Vowels == ["ee", "oo", "i", "e", "u", "a"];
    if vowel in Vowels {
      var k :| 0 <= k < |Vowels| && Vowels[k] == vowel;
      assert k == 0 || k == 1 || k == 2 || k == 3 || k == 4 || k == 5;
    }
  }

  /** Every listed vowel's three formants rise: the three band-pass filters
      of a mouth sit at increasing frequencies. */
  lemma FormantsAscend(v: string)
    requires VowelFormants(v).Some?
    ensures var f := VowelFormants(v).value; 0 < f.f1 < f.f2 < f.f3
  {
  }

  /** Two different listed vowels have different first formants. */
  lemma FirstFormantsDistinct(v: string, w: string)
    requires VowelFormants(v).Some? && VowelFormants(w).Some? && v != w
    ensures VowelFormants(v).value.f1 != VowelFormants(w).value.f1
  {
    ListedVowels(v);
    ListedVowels(w);
  }
}
