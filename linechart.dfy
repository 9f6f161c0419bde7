/** The line chart of the dashboard: the x-axis tick formatter that turns the
    backend's window labels into short tick texts, and the five-button scale
    selector with its "is-dark" highlighting. */
module LineChart {
  import opened Wrappers
  import opened JsText

  const Seasons: seq<string> := ["Sp", "S", "F", "W"]

  /** The English month names the month table holds. */
  const Months: seq<string> := ["January", "February", "March", "April", "May", "June",
    "July", "August", "September", "October", "November", "December"]

  const ButtonValues: seq<string> := ["3y", "1y", "6m", "3m", "1m"]

  /** Index 2 is selected at first. */
  const InitialButton: nat := 2

  /** `slices[i]` when it exists, otherwise the text a template literal gives
      for `undefined`. */
  function PartOr(slices: seq<string>, i: nat): (r: string)
    ensures i < |slices| ==> r == slices[i]
    ensures i >= |slices| ==> r == "undefined"
  {
    if i < |slices| then slices[i] else "undefined"
  }

  /** `slices[1]?.slice(3, 5)` inside a template literal. */
  function YearSuffix(slices: seq<string>): (r: string)
    ensures |slices| >= 2 ==> r == Slice(slices[1], 3, 5)
    ensures |slices| < 2 ==> r == "undefined"
  {
    if |slices| >= 2 then Slice(slices[1], 3, 5) else "undefined"
  }

  /** `+s - 1` as an index, when it is one of `0 <= k < n`. */
  predicate IndexBelow(x: JsNum, n: nat) {
    x.Num? && 0 <= x.v < n
  }

  /** The '3y' branch: a season index and the year's two characters. */
  function SeasonText(slices: seq<string>): (r: Option<string>)
    requires |slices| >= 1
  {
    var season := ToNumber(slices[0]);
    if IndexBelow(season, |Seasons|) then Some(Seasons[season.v] + "." + YearSuffix(slices)) else None
  }

  /** The '1y' branch: a month name's first three letters and the year's two characters. */
  function MonthYearText(slices: seq<string>): (r: Option<string>)
    requires |slices| >= 1
  {
    var month := Sub(ToNumber(slices[0]), Num(1));
    if IndexBelow(month, |Months|) then Some(Slice(Months[month.v], 0, 3) + "." + YearSuffix(slices)) else None
  }

  /** The '6m' branch: a month name's first three letters. */
  function MonthText(slices: seq<string>): (r: Option<string>)
    requires |slices| >= 1
  {
    var month := Sub(ToNumber(slices[0]), Num(1));
    if IndexBelow(month, |Months|) then Some(Slice(Months[month.v], 0, 3)) else None
  }

  /** The '3m' branch: the first two fields joined by '.'. */
  function WeekText(slices: seq<string>): (r: Option<string>)
    requires |slices| >= 1
    ensures r.Some?
  {
    Some(slices[0] + "." + PartOr(slices, 1))
  }

  /** The '1m' branch: the day, when it is 1 or a multiple of 5. */
  function DayText(slices: seq<string>): (r: Option<string>)
    requires |slices| >= 1
    ensures r.Some? ==> r.value == slices[0]
  {
    var day := ToNumber(slices[0]);
    if day.Num? && (day.v % 5 == 0 || day.v == 1) then Some(slices[0]) else None
  }

  /** The tick callback for the selected scale: `Some(text)` for a tick that is
      shown, `None` for the `null` the callback returns otherwise. */
  function TickLabel(scale: string, text: string): (r: Option<string>)
    ensures scale !in ButtonValues ==> r == None
    ensures scale == "3m" ==> r.Some?
  {
    var slices := Split(text, ',');
    if scale == "3y" then SeasonText(slices)
    else if scale == "1y" then MonthYearText(slices)
    else if scale == "6m" then MonthText(slices)
    else if scale == "3m" then WeekText(slices)
    else if scale == "1m" then DayText(slices)
    else None
  }

  /** Which branch each scale takes. */
  lemma TickBranches(text: string)
    ensures TickLabel("3y", text) == SeasonText(Split(text, ','))
    ensures TickLabel("1y", text) == MonthYearText(Split(text, ','))
    ensures TickLabel("6m", text) == MonthText(Split(text, ','))
    ensures TickLabel("3m", text) == WeekText(Split(text, ','))
    ensures TickLabel("1m", text) == DayText(Split(text, ','))
  {
  }

  /** The field before the first ", " of a label is split off, and the rest
      keeps the space. */
  lemma CommaHead(a: string, rest: string)
    requires ',' !in a
    ensures Split(a + ", " + rest, ',') == [a] + Split(" " + rest, ',')
  {
    assert a + ", " + rest == a + [','] + (" " + rest);
    SplitCons(a, ',', " " + rest);
  }

  /** A label "n, rest" splits into the number's text and " " + rest, and the
      first field reads back as n. */
  lemma LabelSlices(n: nat, rest: string)
    requires ',' !in rest
    ensures Split(NatToString(n) + ", " + rest, ',') == [NatToString(n), " " + rest]
    ensures ToNumber(NatToString(n)) == Num(n)
  {
    CommaHead(NatToString(n), rest);
    SplitFree(" " + rest, ',');
    NumTextRoundTrip(Num(n));
  }

  /** A '3y' label "q, yyyy" with a season index below 4 shows the season's
      initial and the two characters at positions 3 and 4 of " yyyy". */
  lemma SeasonTick(q: nat, year: string)
    requires q < 4 && ',' !in year
    ensures TickLabel("3y", NatToString(q) + ", " + year) == Some(Seasons[q] + "." + Slice(" " + year, 3, 5))
  {
    LabelSlices(q, year);
    TickBranches(NatToString(q) + ", " + year);
    assert SeasonText([NatToString(q), " " + year]) == Some(Seasons[q] + "." + Slice(" " + year, 3, 5));
  }

  /** A '1y' label "m, yyyy" with 1 <= m <= 12 shows the month's three-letter
      name, '.', and the year's two characters at positions 3 and 4. */
  lemma MonthYearTick(m: nat, year: string)
    requires 1 <= m <= 12 && ',' !in year
    ensures TickLabel("1y", NatToString(m) + ", " + year) == Some(Months[m - 1][..3] + "." + Slice(" " + year, 3, 5))
  {
    LabelSlices(m, year);
    TickBranches(NatToString(m) + ", " + year);
    assert MonthYearText([NatToString(m), " " + year]) == Some(Months[m - 1][..3] + "." + Slice(" " + year, 3, 5));
  }

  /** A '6m' label "m, yyyy" with 1 <= m <= 12 shows the month's three-letter
      name alone. */
  lemma MonthTick(m: nat, year: string)
    requires 1 <= m <= 12 && ',' !in year
    ensures TickLabel("6m", NatToString(m) + ", " + year) == Some(Months[m - 1][..3])
  {
    LabelSlices(m, year);
    TickBranches(NatToString(m) + ", " + year);
    assert MonthText([NatToString(m), " " + year]) == Some(Months[m - 1][..3]);
  }

  /** A season or month index out of range gives no tick. */
  lemma OutOfRangeIndexHidden(n: nat, year: string)
    requires n >= 13 && ',' !in year
    ensures TickLabel("3y", NatToString(n) + ", " + year) == None
    ensures TickLabel("1y", NatToString(n) + ", " + year) == None
    ensures TickLabel("6m", NatToString(n) + ", " + year) == None
  {
    LabelSlices(n, year);
    TickBranches(NatToString(n) + ", " + year);
  }

  /** A '3m' label "d, m, y" shows "d. m": the second field keeps the space
      that followed the comma. */
  lemma WeekTick(d: nat, m: nat, year: string)
    requires ',' !in year
    ensures TickLabel("3m", NatToString(d) + ", " + NatToString(m) + ", " + year)
      == Some(NatToString(d) + ". " + NatToString(m))
  {
    WeekSlices(NatToString(d), NatToString(m), year);
    TickBranches(NatToString(d) + ", " + NatToString(m) + ", " + year);
    assert NatToString(d) + "." + (" " + NatToString(m)) == NatToString(d) + ". " + NatToString(m);
  }

  /** A label "a, b, year" splits into a, " " + b and " " + year. */
  lemma WeekSlices(a: string, b: string, year: string)
    requires ',' !in a && ',' !in b && ',' !in year
    ensures Split(a + ", " + b + ", " + year, ',') == [a, " " + b, " " + year]
  {
    assert a + ", " + b + ", " + year == a + ", " + (b + ", " + year);
    CommaHead(a, b + ", " + year);
    assert " " + (b + ", " + year) == " " + b + ", " + year;
    CommaHead(" " + b, year);
    SplitFree(" " + year, ',');
  }

  /** A '1m' label "d, m" is shown exactly when d is 1 or a multiple of 5, and
      then as the day number alone. */
  lemma DayTick(d: nat, m: nat)
    ensures TickLabel("1m", NatToString(d) + ", " + NatToString(m))
      == if d % 5 == 0 || d == 1 then Some(NatToString(d)) else None
  {
    LabelSlices(d, NatToString(m));
    TickBranches(NatToString(d) + ", " + NatToString(m));
    assert DayText([NatToString(d), " " + NatToString(m)]) == if d % 5 == 0 || d == 1 then Some(NatToString(d)) else None;
  }

  /** The button group. `dark` mirrors the `is-dark` class of the five buttons,
      `notified` is the sequence of scales handed to the parent, and
      `buttonIndexMem` is the render-local memory the effect compares with. */
  class ButtonGroup {
    var buttonIndex: nat
    var buttonIndexMem: int
    const dark: array<bool>
    var notified: seq<string>

    predicate Valid()
      reads this
    {
      buttonIndex < |ButtonValues| && dark.Length == |ButtonValues|
    }

    /** Exactly the selected button is dark. */
    predicate Highlighted()
      reads this, dark
    {
      dark.Length == |ButtonValues| && forall k :: 0 <= k < dark.Length ==> (dark[k] <==> k == buttonIndex)
    }

    /** First render and its effect: index 2 is selected, highlighted and
        reported as '6m'. */
    constructor ()
      ensures Valid() && Highlighted()
      ensures buttonIndex == InitialButton
      ensures notified == ["6m"]
    {
      buttonIndex := InitialButton;
      dark := new bool[5](_ => false);
      notified := [];
      buttonIndexMem := -1;
      new;
      Effect();
    }

    /** The effect that runs after a render with a new index: every button
        loses `is-dark`, the selected one gets it back, and the parent is told
        the selected scale. `buttonIndexMem` is -1 after every render, so the
        comparison always lets the effect through. */
    method Effect()
      requires Valid() && buttonIndexMem == -1
      modifies this, dark
      ensures Valid() && Highlighted()
      ensures buttonIndex == old(buttonIndex) && buttonIndexMem == buttonIndex
      ensures notified == old(notified) + [ButtonValues[buttonIndex]]
    {
      if buttonIndexMem != buttonIndex {
        buttonIndexMem := buttonIndex;
        var index := 0;
        while index < dark.Length
          invariant 0 <= index <= dark.Length
          invariant Valid() && buttonIndexMem == buttonIndex && notified == old(notified)
          modifies dark
          invariant forall k :: 0 <= k < index ==> (dark[k] <==> k == buttonIndex)
        {
          dark[index] := false;
          if index == buttonIndex {
            dark[index] := true;
          }
          index := index + 1;
        }
        notified := notified + [ButtonValues[buttonIndex]];
      }
    }

    /** A click on button i. React skips the render when the index does not
        change; otherwise the component renders (resetting the memory) and the
        effect runs. */
    method Click(i: nat)
      requires Valid() && Highlighted() && i < |ButtonValues|
      modifies this, dark
      ensures Valid() && Highlighted()
      ensures buttonIndex == i
      ensures old(buttonIndex) == i ==> notified == old(notified)
      ensures old(buttonIndex) != i ==> notified == old(notified) + [ButtonValues[i]]
    {
      if i != buttonIndex {
        buttonIndex := i;
        buttonIndexMem := -1;
        Effect();
      }
    }
  }

  /** Two clicks: the highlight follows the last one and the parent hears of
      each change of scale in turn. */
  method ClickTwice(g: ButtonGroup, i: nat, j: nat)
    requires g.Valid() && g.Highlighted() && i < |ButtonValues| && j < |ButtonValues|
    requires g.buttonIndex != i && i != j
    modifies g, g.dark
    ensures g.Valid() && g.Highlighted() && g.buttonIndex == j
    ensures g.notified == old(g.notified) + [ButtonValues[i], ButtonValues[j]]
  {
    g.Click(i);
    g.Click(j);
  }
}
