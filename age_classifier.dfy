/** Mapping the wrinkle score to an age bracket (`categorize_age`). */
module AgeClassifier {

  /** The three brackets, from youngest to oldest. */
  datatype AgeCategory = Young | MiddleAged | Elderly

  /** Position of a bracket in the age order. */
  function Rank(c: AgeCategory): nat {
    match c
    case Young => 0
    case MiddleAged => 1
    case Elderly => 2
  }

  /** The string `categorize_age` returns for each bracket; the frame shows it
      after the prefix "Age Category: ". */
  function Label(c: AgeCategory): string {
    match c
    case Young => "Young"
    case MiddleAged => "Middle-aged"
    case Elderly => "Elderly"
  }

  /** Two strict cutoffs: above 15 is Elderly, above 8 is Middle-aged, the rest Young. */
  function CategorizeAge(wrinklePercentage: real): (c: AgeCategory)
    ensures c == Young <==> wrinklePercentage <= 8.0
    ensures c == MiddleAged <==> 8.0 < wrinklePercentage <= 15.0
    ensures c == Elderly <==> 15.0 < wrinklePercentage
  {
    if wrinklePercentage > 15.0 then Elderly
    else if wrinklePercentage > 8.0 then MiddleAged
    else Young
  }

  /** A higher score never gives a younger bracket. */
  lemma CategorizeAgeMonotone(p: real, q: real)
    requires p <= q
    ensures Rank(CategorizeAge(p)) <= Rank(CategorizeAge(q))
  {
  }

  /** The cutoffs themselves fall in the lower bracket. */
  lemma CutoffsAreInclusiveBelow()
    ensures CategorizeAge(8.0) == Young
    ensures CategorizeAge(15.0) == MiddleAged
    ensures CategorizeAge(0.0) == Young && CategorizeAge(100.0) == Elderly
  {
  }

  /** Distinct brackets get distinct strings, so the string identifies the bracket. */
  lemma LabelsDistinct(c: AgeCategory, d: AgeCategory)
    ensures Label(c) == Label(d) <==> c == d
  {
    if c != d {
      assert Label(c)[0] != Label(d)[0] || |Label(c)| != |Label(d)|;
    }
  }
}
