/** The nutrition traffic-light panel: six nutrient rows with a status each,
    the advice shown for the worst of them, and an overall score with its
    colour band. It uses its own good / warning / danger vocabulary. */
module NutritionPanel {
  import ScoreBadges

  datatype Status = Good | Warning | Danger

  datatype Nutrients = Nutrients(calories: real, protein: real, carbs: real, fat: real, sodium: real, sugar: real)

  datatype StatusFlags = StatusFlags(
    calories: Status, protein: Status, carbs: Status, fat: Status, sodium: Status, sugar: Status)

  datatype NutritionData = NutritionData(food: string, confidence: real, nutrients: Nutrients, healthFlags: StatusFlags)

  datatype Row = Row(name: string, value: real, unit: string, status: Status)

  const RowNames: seq<string> := ["Calories", "Protein", "Carbs", "Fat", "Sodium", "Sugar"]

  /** The rows of the panel, in display order. */
  function Rows(d: NutritionData): (rows: seq<Row>)
    ensures |rows| == |RowNames| == 6
    ensures forall i :: 0 <= i < |rows| ==> rows[i].name == RowNames[i]
  {
    var n := d.nutrients;
    var f := d.healthFlags;
    [ Row("Calories", n.calories, "kcal", f.calories),
      Row("Protein", n.protein, "g", f.protein),
      Row("Carbs", n.carbs, "g", f.carbs),
      Row("Fat", n.fat, "g", f.fat),
      Row("Sodium", n.sodium, "mg", f.sodium),
      Row("Sugar", n.sugar, "g", f.sugar) ]
  }

  /** `getStatusColor`. */
  function StatusColor(status: Status): string {
    match status
    case Good => "nutrition-good"
    case Warning => "nutrition-warning"
    case Danger => "nutrition-danger"
  }

  lemma StatusColorsDistinct(a: Status, b: Status)
    ensures StatusColor(a) == StatusColor(b) <==> a == b
  {
  }

  datatype AdviceEntry = AdviceEntry(danger: string, warning: string, good: string)

  const AdviceTable: map<string, AdviceEntry> := map[
    "sodium" := AdviceEntry(
      "Very high sodium! Limit for heart health.",
      "Moderate sodium - watch your intake.",
      "Good sodium level for your health."),
    "sugar" := AdviceEntry(
      "High sugar content - limit portion size.",
      "Moderate sugar - enjoy in moderation.",
      "Low sugar content - great choice!"),
    "calories" := AdviceEntry(
      "High calorie density - smaller portion recommended.",
      "Moderate calories - good for active lifestyle.",
      "Well-balanced calorie content."),
    "protein" := AdviceEntry(
      "Very high protein - ensure adequate hydration.",
      "Good protein content for muscle health.",
      "Excellent protein source!"),
    "carbs" := AdviceEntry(
      "High carbs - pair with protein or fiber.",
      "Moderate carbs - good energy source.",
      "Well-balanced carbohydrate content."),
    "fat" := AdviceEntry(
      "High fat content - enjoy smaller portions.",
      "Moderate healthy fats included.",
      "Good balance of healthy fats.")]

  const FallbackAdvice := "Monitor intake based on your health goals."

  function EntryFor(e: AdviceEntry, status: Status): string {
    match status
    case Danger => e.danger
    case Warning => e.warning
    case Good => e.good
  }

  /** `getHealthAdvice`: the table's text, or the fallback when the name is
      not in the table (or its text were empty). */
  function HealthAdviceText(nutrient: string, status: Status): (r: string)
    ensures nutrient !in AdviceTable ==> r == FallbackAdvice
    ensures r != ""
  {
    var text := if nutrient in AdviceTable then EntryFor(AdviceTable[nutrient], status) else "";
    if text != "" then text else FallbackAdvice
  }

  /** Every one of the six nutrients has its own advice for each status. */
  lemma AdviceTableLookup(nutrient: string, status: Status)
    requires nutrient in AdviceTable
    ensures HealthAdviceText(nutrient, status) == EntryFor(AdviceTable[nutrient], status)
    ensures HealthAdviceText(nutrient, status) != FallbackAdvice
  {
    var e := AdviceTable[nutrient];
    assert e.danger != "" && e.warning != "" && e.good != "";
    assert e.danger != FallbackAdvice && e.warning != FallbackAdvice && e.good != FallbackAdvice;
  }

  function LowerChar(c: char): char {
    if 'A' <= c <= 'Z' then (c as int + 32) as char else c
  }

  /** `toLowerCase` on ASCII letters. */
  function Lower(s: string): (r: string)
    ensures |r| == |s|
  {
    seq(|s|, i requires 0 <= i < |s| => LowerChar(s[i]))
  }

  /** Each row name, lower-cased, is a key of the advice table, so the
      panel never shows the fallback advice. */
  lemma RowNamesHaveAdvice(d: NutritionData, i: int, status: Status)
    requires 0 <= i < 6
    ensures Lower(Rows(d)[i].name) in AdviceTable
    ensures HealthAdviceText(Lower(Rows(d)[i].name), status) != FallbackAdvice
  {
    assert Lower("Calories") == "calories";
    assert Lower("Protein") == "protein";
    assert Lower("Carbs") == "carbs";
    assert Lower("Fat") == "fat";
    assert Lower("Sodium") == "sodium";
    assert Lower("Sugar") == "sugar";
    AdviceTableLookup(Lower(Rows(d)[i].name), status);
  }

  /** Number of rows with the given status. */
  function CountStatus(rows: seq<Row>, status: Status): (n: nat)
    ensures n <= |rows|
  {
    if |rows| == 0 then 0
    else (if rows[0].status == status then 1 else 0) + CountStatus(rows[1..], status)
  }

  /** The three counts split the rows. */
  lemma {:induction false} CountsPartition(rows: seq<Row>)
    ensures CountStatus(rows, Good) + CountStatus(rows, Warning) + CountStatus(rows, Danger) == |rows|
  {
    if |rows| > 0 {
      CountsPartition(rows[1..]);
    }
  }

  /** A status counts every row exactly when every row has it. */
  lemma {:induction false} CountAll(rows: seq<Row>, status: Status)
    ensures CountStatus(rows, status) == |rows| <==> forall i :: 0 <= i < |rows| ==> rows[i].status == status
  {
    if |rows| > 0 {
      CountAll(rows[1..], status);
      if CountStatus(rows, status) == |rows| {
        forall i | 0 <= i < |rows| ensures rows[i].status == status {
          if i > 0 {
            assert rows[i] == rows[1..][i - 1];
          }
        }
      }
      if forall i :: 0 <= i < |rows| ==> rows[i].status == status {
        assert forall i :: 0 <= i < |rows| - 1 ==> rows[1..][i].status == status by {
          forall i | 0 <= i < |rows| - 1 ensures rows[1..][i].status == status {
            assert rows[1..][i] == rows[i + 1];
          }
        }
      }
    }
  }

  /** The three counts in one pass over the rows. */
  method TallyStatuses(rows: seq<Row>) returns (good: nat, warning: nat, danger: nat)
    ensures good == CountStatus(rows, Good)
    ensures warning == CountStatus(rows, Warning)
    ensures danger == CountStatus(rows, Danger)
    ensures good + warning + danger == |rows|
  {
    good, warning, danger := 0, 0, 0;
    var i := |rows|;
    while i > 0
      invariant 0 <= i <= |rows|
      invariant good == CountStatus(rows[i..], Good)
      invariant warning == CountStatus(rows[i..], Warning)
      invariant danger == CountStatus(rows[i..], Danger)
      invariant good + warning + danger == |rows| - i
    {
      i := i - 1;
      assert rows[i..][1..] == rows[i + 1..];
      match rows[i].status
      case Good => good := good + 1;
      case Warning => warning := warning + 1;
      case Danger => danger := danger + 1;
    }
    assert rows[0..] == rows;
  }

  /** The overall score, in exact arithmetic:
      ((good * 100 + warning * 60) / (rows * 100)) * 100. */
  function HealthScore(d: NutritionData): (score: real)
    ensures score * 6.0 == (100 * CountStatus(Rows(d), Good) + 60 * CountStatus(Rows(d), Warning)) as real
    ensures 0.0 <= score <= 100.0
  {
    var rows := Rows(d);
    var g := CountStatus(rows, Good);
    var w := CountStatus(rows, Warning);
    CountsPartition(rows);
    ((g * 100 + w * 60) as real / (|rows| * 100) as real) * 100.0
  }

  /** The score is 100 exactly when every row is good, and 0 exactly when
      every row is danger. */
  lemma ScoreExtremes(d: NutritionData)
    ensures HealthScore(d) == 100.0 <==> forall i :: 0 <= i < 6 ==> Rows(d)[i].status == Good
    ensures HealthScore(d) == 0.0 <==> forall i :: 0 <= i < 6 ==> Rows(d)[i].status == Danger
  {
    var rows := Rows(d);
    CountsPartition(rows);
    CountAll(rows, Good);
    CountAll(rows, Danger);
  }

  /** The colour band of the score bar. */
  function ScoreBand(score: real): Status {
    if score >= 80.0 then Good
    else if score >= 60.0 then Warning
    else Danger
  }

  /** An all-warning meal scores 60, the bottom of the warning band. */
  lemma AllWarningBand(d: NutritionData)
    requires forall i :: 0 <= i < 6 ==> Rows(d)[i].status == Warning
    ensures HealthScore(d) == 60.0
    ensures ScoreBand(HealthScore(d)) == Warning
  {
    CountAll(Rows(d), Warning);
    CountsPartition(Rows(d));
  }

  /** On whole-number scores the panel's band has the same thresholds as
      the dashboard's score colour. */
  lemma BandMatchesDashboardColor(score: int)
    ensures StatusColor(ScoreBand(score as real)) == ScoreBadges.ScoreColor(score)
  {
  }

  /** The rows that are not good, in table order. */
  function NotGood(rows: seq<Row>): (r: seq<Row>)
    ensures |r| == |rows| - CountStatus(rows, Good)
    ensures forall i :: 0 <= i < |r| ==> r[i].status != Good
  {
    if |rows| == 0 then []
    else if rows[0].status != Good then [rows[0]] + NotGood(rows[1..])
    else NotGood(rows[1..])
  }

  /** `a` occurs in `b` in order, possibly with gaps. */
  predicate IsSubsequence(a: seq<Row>, b: seq<Row>)
    decreases |b|
  {
    |a| == 0 || (|b| > 0 && (if a[0] == b[0] then IsSubsequence(a[1..], b[1..]) else IsSubsequence(a, b[1..])))
  }

  lemma {:induction false} NotGoodIsSubsequence(rows: seq<Row>)
    ensures IsSubsequence(NotGood(rows), rows)
  {
    if |rows| > 0 {
      NotGoodIsSubsequence(rows[1..]);
      if rows[0].status == Good {
        SkipHead(NotGood(rows[1..]), rows);
      } else {
        assert ([rows[0]] + NotGood(rows[1..]))[1..] == NotGood(rows[1..]);
      }
    }
  }

  /** A subsequence of the tail is a subsequence of the whole. */
  lemma {:induction false} SkipHead(a: seq<Row>, b: seq<Row>)
    requires |b| > 0 && IsSubsequence(a, b[1..])
    ensures IsSubsequence(a, b)
    decreases |b|, 0
  {
    if |a| > 0 && a[0] == b[0] {
      SubsequenceTail(a, b[1..]);
    }
  }

  /** Dropping the head of a subsequence keeps it a subsequence. */
  lemma {:induction false} SubsequenceTail(a: seq<Row>, b: seq<Row>)
    requires |a| > 0 && IsSubsequence(a, b)
    ensures IsSubsequence(a[1..], b)
    decreases |b|, 1
  {
    if a[0] != b[0] {
      SubsequenceTail(a, b[1..]);
    }
    SkipHead(a[1..], b);
  }

  /** A prefix of a subsequence is a subsequence. */
  lemma {:induction false} PrefixIsSubsequence(a: seq<Row>, b: seq<Row>, k: nat)
    requires IsSubsequence(a, b) && k <= |a|
    ensures IsSubsequence(a[..k], b)
    decreases |b|
  {
    if k > 0 {
      if a[0] == b[0] {
        PrefixIsSubsequence(a[1..], b[1..], k - 1);
        assert a[..k][1..] == a[1..][..k - 1];
      } else {
        PrefixIsSubsequence(a, b[1..], k);
      }
    }
  }

  /** The advice panel: the first three rows that are not good. */
  function AdvicePanel(rows: seq<Row>): seq<Row> {
    var bad := NotGood(rows);
    if |bad| <= 3 then bad else bad[..3]
  }

  /** The filter keeps only rows of its input. */
  lemma {:induction false} NotGoodFromInput(rows: seq<Row>, x: Row)
    requires x in NotGood(rows)
    ensures x in rows && x.status != Good
  {
    if |rows| > 0 && x != rows[0] {
      NotGoodFromInput(rows[1..], x);
    }
  }

  /** Filtering distributes over concatenation. */
  lemma {:induction false} NotGoodAppend(a: seq<Row>, b: seq<Row>)
    ensures NotGood(a + b) == NotGood(a) + NotGood(b)
  {
    if |a| == 0 {
      assert a + b == b;
    } else {
      assert (a + b)[1..] == a[1..] + b;
      NotGoodAppend(a[1..], b);
    }
  }

  /** Row names are pairwise different. */
  predicate DistinctNames(rows: seq<Row>) {
    forall i, j :: 0 <= i < j < |rows| ==> rows[i].name != rows[j].name
  }

  /** With distinct row names, a row is in the advice panel exactly when it
      is not good and fewer than three rows before it are not good. */
  lemma PanelMembership(rows: seq<Row>, i: nat)
    requires DistinctNames(rows) && i < |rows|
    ensures rows[i] in AdvicePanel(rows) <==> rows[i].status != Good && |NotGood(rows[..i])| < 3
  {
    var pre, x, post := rows[..i], rows[i], rows[i + 1..];
    assert rows == pre + [x] + post;
    NotGoodAppend(pre + [x], post);
    NotGoodAppend(pre, [x]);
    assert [x][1..] == [];
    var bad := NotGood(rows);
    var k := |NotGood(pre)|;
    assert bad == NotGood(pre) + NotGood([x]) + NotGood(post);
    var panel := AdvicePanel(rows);
    if x.status != Good && k < 3 {
      assert bad[k] == x;
      assert panel[k] == x;
    }
    if k >= 3 {
      assert x !in pre;
      assert panel == NotGood(pre)[..3];
      if x in panel {
        NotGoodFromInput(pre, x);
      }
      assert x !in panel;
    }
  }

  /** The rows of the panel have distinct names. */
  lemma RowsDistinct(d: NutritionData)
    ensures DistinctNames(Rows(d))
  {
    var rows := Rows(d);
    assert RowNames[2] != RowNames[5] by {
      assert RowNames[2][1] != RowNames[5][1];
    }
  }

  /** At most three rows, all of them warning or danger, as many as there
      are (up to three), and in table order. */
  lemma AdvicePanelShape(d: NutritionData)
    ensures var panel := AdvicePanel(Rows(d));
      && |panel| == (if 6 - CountStatus(Rows(d), Good) <= 3 then 6 - CountStatus(Rows(d), Good) else 3)
      && (forall i :: 0 <= i < |panel| ==> panel[i].status != Good)
      && IsSubsequence(panel, Rows(d))
  {
    var rows := Rows(d);
    NotGoodIsSubsequence(rows);
    var bad := NotGood(rows);
    if |bad| > 3 {
      PrefixIsSubsequence(bad, rows, 3);
    }
  }

  /** The panel shows exactly the first three rows that are not good: a row
      is listed iff it is not good and fewer than three rows before it are
      not good. */
  lemma AdvicePanelFirstThree(d: NutritionData, i: nat)
    requires i < 6
    ensures Rows(d)[i] in AdvicePanel(Rows(d)) <==> Rows(d)[i].status != Good && |NotGood(Rows(d)[..i])| < 3
  {
    RowsDistinct(d);
    PanelMembership(Rows(d), i);
  }
}
