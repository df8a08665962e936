/** The naive Bayes page's worked example: seven fixed weather days, the
    class priors, likelihoods counted without smoothing, the two unnormalised
    class scores for one query day, and the prediction. */
module NaiveBayesPage {
  import opened Common

  /** The page's string values, each column's few values as an enumeration. */
  datatype Outlook = Sunny | Overcast | Rainy
  datatype Temperature = Hot | Mild | Cool
  datatype Humidity = High | Normal
  datatype Play = Yes | No

  datatype Day = Day(outlook: Outlook, temperature: Temperature, humidity: Humidity, windy: bool, play: Play)

  const Data: seq<Day> := [
    Day(Sunny, Hot, High, false, No),
    Day(Sunny, Hot, High, true, No),
    Day(Overcast, Hot, High, false, Yes),
    Day(Rainy, Mild, High, false, Yes),
    Day(Rainy, Cool, Normal, false, Yes),
    Day(Rainy, Cool, Normal, true, No),
    Day(Overcast, Cool, Normal, true, Yes)
  ]

  /** The four facts of the query day: outlook Sunny, temperature Cool,
      humidity High, windy. */
  datatype Feature = SunnyOutlook | CoolTemperature | HighHumidity | WindyDay

  predicate Holds(f: Feature, d: Day)
  {
    match f
    case SunnyOutlook => d.outlook == Sunny
    case CoolTemperature => d.temperature == Cool
    case HighHumidity => d.humidity == High
    case WindyDay => d.windy
  }

  /** Class membership as the page filters it: `play === "Yes"` or `play === "No"`. */
  predicate InClass(d: Day, yes: bool)
  {
    d.play == (if yes then Yes else No)
  }

  /** `data.filter(d => d.play === "Yes").length`. */
  function YesCount(data: seq<Day>): (n: nat)
    ensures n <= |data|
  {
    if |data| == 0 then 0 else YesCount(data[..|data| - 1]) + (if InClass(data[|data| - 1], true) then 1 else 0)
  }

  /** The class sizes the page divides by: the Yes count, and for No the
      rest of the rows (`total - yes`). */
  function ClassSize(data: seq<Day>, yes: bool): nat
  {
    if yes then YesCount(data) else |data| - YesCount(data)
  }

  /** The rows of the class that also have the feature. */
  function Matching(data: seq<Day>, f: Feature, yes: bool): nat
  {
    if |data| == 0 then 0
    else Matching(data[..|data| - 1], f, yes) + (if Holds(f, data[|data| - 1]) && InClass(data[|data| - 1], yes) then 1 else 0)
  }

  /** A class never has more matching rows than it has rows. */
  lemma {:induction false} MatchingBound(data: seq<Day>, f: Feature, yes: bool)
    ensures Matching(data, f, yes) <= ClassSize(data, yes)
  {
    if |data| > 0 {
      MatchingBound(data[..|data| - 1], f, yes);
    }
  }

  /** `matching / classSize || 0`: the only case where the division is not a
      number is 0 / 0, which the page turns into 0. */
  function Likelihood(data: seq<Day>, f: Feature, yes: bool): (p: real)
    ensures 0.0 <= p <= 1.0
    ensures ClassSize(data, yes) == 0 || Matching(data, f, yes) == 0 ==> p == 0.0
    ensures Matching(data, f, yes) == ClassSize(data, yes) > 0 ==> p == 1.0
  {
    MatchingBound(data, f, yes);
    Ratio(Matching(data, f, yes), ClassSize(data, yes))
  }

  /** The fraction a of b, 0 for 0 / 0. */
  function Ratio(a: nat, b: nat): (p: real)
    requires a <= b
    ensures 0.0 <= p <= 1.0 && (b == 0 || a == 0 ==> p == 0.0) && (a == b > 0 ==> p == 1.0)
    ensures b != 0 ==> p * b as real == a as real
  {
    if b == 0 then 0.0 else a as real / b as real
  }

  /** `yes / total` and `no / total`. */
  function Prior(data: seq<Day>, yes: bool): (p: real)
    requires |data| > 0
    ensures 0.0 <= p <= 1.0
    ensures p * |data| as real == ClassSize(data, yes) as real
  {
    Ratio(ClassSize(data, yes), |data|)
  }

  /** The two priors add up to one. */
  lemma PriorsSumToOne(data: seq<Day>)
    requires |data| > 0
    ensures Prior(data, true) + Prior(data, false) == 1.0
  {
    var n := |data| as real;
    var y := YesCount(data) as real;
    assert Prior(data, true) == y / n;
    assert Prior(data, false) == (n - y) / n;
    DivAdd(y, n - y, n);
    DivSelf(n);
  }

  /** The product of the four likelihoods and the prior. */
  function Score(data: seq<Day>, yes: bool): (s: real)
    requires |data| > 0
    ensures s >= 0.0
  {
    Product(Likelihood(data, SunnyOutlook, yes), Likelihood(data, CoolTemperature, yes),
            Likelihood(data, HighHumidity, yes), Likelihood(data, WindyDay, yes), Prior(data, yes))
  }

  function Product(a: real, b: real, c: real, d: real, e: real): (p: real)
    requires a >= 0.0 && b >= 0.0 && c >= 0.0 && d >= 0.0 && e >= 0.0
    ensures p >= 0.0 && (a == 0.0 || b == 0.0 || c == 0.0 || d == 0.0 || e == 0.0 ==> p == 0.0)
  {
    Mul(Mul(Mul(Mul(a, b), c), d), e)
  }

  function Mul(a: real, b: real): (p: real)
    requires a >= 0.0 && b >= 0.0
    ensures p >= 0.0 && (a == 0.0 || b == 0.0 ==> p == 0.0)
  {
    a * b
  }

  /** `pXGivenYes > pXGivenNo ? "Yes" : "No"`. */
  function Predicted(data: seq<Day>): (r: Play)
    requires |data| > 0
    ensures r == Yes <==> Score(data, true) > Score(data, false)
  {
    if Score(data, true) > Score(data, false) then Yes else No
  }

  /** A tie, and in particular a zero Yes score, predicts "No". */
  lemma ZeroYesScorePredictsNo(data: seq<Day>)
    requires |data| > 0 && Score(data, true) == 0.0
    ensures Predicted(data) == No
  {
  }

  /** A feature no row of the class has gives that class a score of zero. */
  lemma UnseenFeatureZeroes(data: seq<Day>, f: Feature, yes: bool)
    requires |data| > 0 && Matching(data, f, yes) == 0
    ensures Score(data, yes) == 0.0
  {
    var l := Likelihood(data, f, yes);
    assert l == 0.0;
  }

  /** Appending a day adds its own contribution to each count. */
  lemma YesCountSnoc(s: seq<Day>, d: Day)
    ensures YesCount(s + [d]) == YesCount(s) + (if InClass(d, true) then 1 else 0)
  {
    assert (s + [d])[..|s|] == s;
  }

  lemma MatchingSnoc(s: seq<Day>, d: Day, f: Feature, yes: bool)
    ensures Matching(s + [d], f, yes) == Matching(s, f, yes) + (if Holds(f, d) && InClass(d, yes) then 1 else 0)
  {
    assert (s + [d])[..|s|] == s;
  }

  /** Four of the page's seven days have play = Yes. */
  lemma DataYesCount()
    ensures YesCount(Data) == 4 && ClassSize(Data, false) == 3
  {
    for i := 0 to 7
      invariant YesCount(Data[..i]) == [0, 0, 0, 1, 2, 3, 3, 4][i]
    {
      YesCountSnoc(Data[..i], Data[i]);
      PrefixSnoc(Data, i);
    }
    assert Data[..7] == Data;
  }

  /** Counting the days of a class that have a feature, one day at a time:
      `counts[i]` is the count over the first i days. */
  lemma DataMatching(f: Feature, yes: bool, counts: seq<nat>)
    requires |counts| == 8 && counts[0] == 0
    requires forall i :: 0 <= i < 7 ==> counts[i + 1] == counts[i] + (if Holds(f, Data[i]) && InClass(Data[i], yes) then 1 else 0)
    ensures Matching(Data, f, yes) == counts[7]
  {
    for i := 0 to 7
      invariant Matching(Data[..i], f, yes) == counts[i]
    {
      MatchingSnoc(Data[..i], Data[i], f, yes);
      PrefixSnoc(Data, i);
    }
    assert Data[..7] == Data;
  }

  /** No Sunny day has play = Yes. */
  lemma NoSunnyYes()
    ensures Matching(Data, SunnyOutlook, true) == 0
  {
    DataMatching(SunnyOutlook, true, [0, 0, 0, 0, 0, 0, 0, 0]);
  }

  /** Of the No days two are Sunny, one Cool, two of High humidity and two
      windy. */
  lemma NoDayCounts()
    ensures Matching(Data, SunnyOutlook, false) == 2 && Matching(Data, CoolTemperature, false) == 1
    ensures Matching(Data, HighHumidity, false) == 2 && Matching(Data, WindyDay, false) == 2
  {
    SunnyNo();
    CoolNo();
    HighNo();
    WindyNo();
  }

  lemma SunnyNo()
    ensures Matching(Data, SunnyOutlook, false) == 2
  {
    DataMatching(SunnyOutlook, false, [0, 1, 2, 2, 2, 2, 2, 2]);
  }

  lemma CoolNo()
    ensures Matching(Data, CoolTemperature, false) == 1
  {
    DataMatching(CoolTemperature, false, [0, 0, 0, 0, 0, 0, 1, 1]);
  }

  lemma HighNo()
    ensures Matching(Data, HighHumidity, false) == 2
  {
    DataMatching(HighHumidity, false, [0, 1, 2, 2, 2, 2, 2, 2]);
  }

  lemma WindyNo()
    ensures Matching(Data, WindyDay, false) == 2
  {
    DataMatching(WindyDay, false, [0, 0, 1, 1, 1, 1, 2, 2]);
  }

  /** The No score: 2/3 · 1/3 · 2/3 · 2/3 · 3/7 = 8/189. */
  lemma NoScore()
    ensures Prior(Data, false) == 3.0 / 7.0 && Score(Data, false) == 8.0 / 189.0
  {
    DataYesCount();
    NoDayCounts();
    assert Likelihood(Data, SunnyOutlook, false) == 2.0 / 3.0;
    assert Likelihood(Data, CoolTemperature, false) == 1.0 / 3.0;
    assert Likelihood(Data, HighHumidity, false) == 2.0 / 3.0;
    assert Likelihood(Data, WindyDay, false) == 2.0 / 3.0;
  }

  /** On the page's data no Sunny day has play = Yes, so the Yes score is 0,
      the No score is 8/189 and the prediction is "No". */
  lemma WorkedExample()
    ensures Prior(Data, true) == 4.0 / 7.0 && Prior(Data, false) == 3.0 / 7.0
    ensures Score(Data, true) == 0.0 && Score(Data, false) == 8.0 / 189.0
    ensures Predicted(Data) == No
  {
    DataYesCount();
    NoSunnyYes();
    UnseenFeatureZeroes(Data, SunnyOutlook, true);
    NoScore();
  }
}
