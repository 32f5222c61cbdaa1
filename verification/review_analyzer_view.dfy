/** How an analysis is shown (components/dashboard/ai/ai-review-analyzer.tsx): the priority badge,
    the sentiment bar and the lists of issues and actions. The sentiment score is a real number;
    the percentage text under the bar is float formatting and is not modelled. */
module ReviewAnalyzerView {
  import opened Wrappers
  import opened Json

  /** The sentiment bar's width in percent: `(score + 1) * 50` held within 0 and 100. */
  function BarWidth(score: real): (r: real)
    ensures 0.0 <= r <= 100.0
    ensures -1.0 <= score <= 1.0 ==> r == (score + 1.0) * 50.0
    ensures score <= -1.0 ==> r == 0.0
    ensures score >= 1.0 ==> r == 100.0
  {
    var raw := (score + 1.0) * 50.0;
    var capped := if raw < 100.0 then raw else 100.0;
    if capped > 0.0 then capped else 0.0
  }

  /** A higher score never gives a narrower bar. */
  lemma BarWidthMonotone(a: real, b: real)
    requires a <= b
    ensures BarWidth(a) <= BarWidth(b)
  {
  }

  datatype Band = Green | Yellow | Red

  /** The bar's colour. */
  function BarBand(score: real): (r: Band)
    ensures r == Green <==> score > 0.5
    ensures r == Yellow <==> 0.0 < score <= 0.5
    ensures r == Red <==> score <= 0.0
  {
    if score > 0.5 then Green else if score > 0.0 then Yellow else Red
  }

  /** Colours in the order of the scores they stand for. */
  function Rank(b: Band): nat {
    match b
    case Red => 0
    case Yellow => 1
    case Green => 2
  }

  /** The colour agrees with the width: a red bar is at most half full, a yellow one over half
      and at most three quarters, a green one over three quarters; and a higher score never gives
      a lower colour. */
  lemma BandMatchesWidth(score: real, other: real)
    ensures BarBand(score) == Red ==> BarWidth(score) <= 50.0
    ensures BarBand(score) == Yellow ==> 50.0 < BarWidth(score) <= 75.0
    ensures BarBand(score) == Green ==> 75.0 < BarWidth(score)
    ensures score <= other ==> Rank(BarBand(score)) <= Rank(BarBand(other))
  {
  }

  /** The badge text after "Priorité: ". */
  function PriorityLabel(priority: Option<Json>): (r: string)
    ensures r == "Élevée" <==> priority == Some(Str("high"))
    ensures r == "Moyenne" <==> priority == Some(Str("medium"))
    ensures r == "Basse" <==> priority != Some(Str("high")) && priority != Some(Str("medium"))
  {
    if priority == Some(Str("high")) then "Élevée"
    else if priority == Some(Str("medium")) then "Moyenne"
    else "Basse"
  }

  /** `getPriorityColor`: red, yellow or green for the three priorities, grey for anything else. */
  function PriorityColor(priority: Option<Json>): (r: string)
    ensures priority == Some(Str("high")) ==> r == "bg-red-100 text-red-800"
    ensures priority == Some(Str("medium")) ==> r == "bg-yellow-100 text-yellow-800"
    ensures priority == Some(Str("low")) ==> r == "bg-green-100 text-green-800"
    ensures r == "bg-gray-100 text-gray-800" <==>
              priority != Some(Str("high")) && priority != Some(Str("medium")) && priority != Some(Str("low"))
  {
    match priority
    case Some(Str("high")) => "bg-red-100 text-red-800"
    case Some(Str("medium")) => "bg-yellow-100 text-yellow-800"
    case Some(Str("low")) => "bg-green-100 text-green-800"
    case _ => "bg-gray-100 text-gray-800"
  }

  /** Label and colour agree on the three priorities; any other priority reads "Basse" like a low
      one but is shown grey, not green. */
  lemma BadgeAgrees(priority: Option<Json>)
    ensures PriorityColor(priority) == "bg-green-100 text-green-800" ==> PriorityLabel(priority) == "Basse"
    ensures PriorityLabel(priority) == "Basse" ==>
              PriorityColor(priority) == "bg-green-100 text-green-800" || PriorityColor(priority) == "bg-gray-100 text-gray-800"
    ensures PriorityColor(priority) == "bg-red-100 text-red-800" <==> PriorityLabel(priority) == "Élevée"
  {
  }

  /** What becomes of the issues or actions section. */
  datatype Section = Hidden | Listed(items: seq<Json>) | Fails

  /** `list && list.length > 0 && list.map(...)`: a non-empty array is listed item by item; a
      non-empty string, or an object with a positive `length`, has no `map`, so rendering throws;
      anything else, including an empty array or a missing property, hides the section. */
  function ListSection(list: Option<Json>): (r: Section)
    ensures r.Listed? <==> list.Some? && list.value.Arr? && |list.value.items| > 0
    ensures r.Listed? ==> r.items == list.value.items
    ensures r == Fails <==> list.Some? && !list.value.Arr? && LengthPositive(list.value)
    ensures r == Hidden <==> list.None? || !LengthPositive(list.value)
  {
    match list
    case Some(Arr(items)) => if |items| > 0 then Listed(items) else Hidden
    case Some(v) => if LengthPositive(v) then Fails else Hidden
    case None => Hidden
  }
}
