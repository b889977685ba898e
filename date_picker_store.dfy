/**
 * The date-picker store: the chosen start and end dates as text, the month
 * shown on each side of a range calendar, the month shown before the last
 * change, and the dates selected on each side.
 */
module DatePickerStore {

  /** The `main` key of the state tables: one side of the range. */
  datatype Side = Start | End

  /** The `sub` key: which field of a side. */
  datatype Part = Year | Month

  datatype YearMonth = YearMonth(year: int, month: int)

  /** DateStateType: a year and a month for each side. */
  datatype DateState = DateState(start: YearMonth, end: YearMonth)

  /** `state[main][sub]` */
  function Cell(s: DateState, main: Side, sub: Part): int
  {
    var ym := if main == Start then s.start else s.end;
    if sub == Year then ym.year else ym.month
  }

  /** `state[main][sub] = v` */
  function SetCell(s: DateState, main: Side, sub: Part, v: int): (r: DateState)
    ensures Cell(r, main, sub) == v
  {
    var ym := if main == Start then s.start else s.end;
    var ym' := if sub == Year then ym.(year := v) else ym.(month := v);
    if main == Start then s.(start := ym') else s.(end := ym')
  }

  /** Writing a cell changes that cell and leaves the other three as they were. */
  lemma CellOfSetCell(s: DateState, main: Side, sub: Part, v: int, main': Side, sub': Part)
    ensures Cell(SetCell(s, main, sub, v), main', sub') ==
      if main' == main && sub' == sub then v else Cell(s, main', sub')
  {
  }

  /** Two states that agree on every cell are the same state. */
  lemma CellsDetermine(s: DateState, t: DateState)
    requires forall m: Side, p: Part :: Cell(s, m, p) == Cell(t, m, p)
    ensures s == t
  {
    assert Cell(s, Start, Year) == Cell(t, Start, Year);
    assert Cell(s, Start, Month) == Cell(t, Start, Month);
    assert Cell(s, End, Year) == Cell(t, End, Year);
    assert Cell(s, End, Month) == Cell(t, End, Month);
  }

  /** Writing back the value a cell already holds changes nothing. */
  lemma SetCellSame(s: DateState, main: Side, sub: Part)
    ensures SetCell(s, main, sub, Cell(s, main, sub)) == s
  {
  }

  /** A second write to the same cell overrides the first. */
  lemma SetCellTwice(s: DateState, main: Side, sub: Part, v: int, w: int)
    ensures SetCell(SetCell(s, main, sub, v), main, sub, w) == SetCell(s, main, sub, w)
  {
  }

  /** SelectedDateType: the date text chosen on each side. */
  datatype Selected = Selected(start: string, end: string)

  class DatePickerStoreState {
    var startDate: string
    var endDate: string
    var curYear: int
    var curMonth: int
    var curDay: int
    var dateState: DateState
    var beforeState: DateState
    var selectedDate: Selected

    /** useDatePickerStore(): both sides show the month of `today`, given as
        its full year, its month from 0 and its day of month. */
    constructor (year: int, month: int, day: int)
      ensures startDate == "" && endDate == ""
      ensures curYear == year && curMonth == month && curDay == day
      ensures dateState == DateState(YearMonth(year, month), YearMonth(year, month))
      ensures beforeState == dateState
      ensures selectedDate == Selected("", "")
    {
      startDate := "";
      endDate := "";
      curYear := year;
      curMonth := month;
      curDay := day;
      dateState := DateState(YearMonth(year, month), YearMonth(year, month));
      beforeState := DateState(YearMonth(year, month), YearMonth(year, month));
      selectedDate := Selected("", "");
    }

    /** setStartDate(v): only the start date changes. */
    method SetStartDate(v: string)
      modifies this`startDate
      ensures startDate == v
    {
      startDate := v;
    }

    /** setEndDate(v): only the end date changes. */
    method SetEndDate(v: string)
      modifies this`endDate
      ensures endDate == v
    {
      endDate := v;
    }

    /** setDateState(main, sub, v): the cell's current value moves to the
        before-state, and the cell takes `v`; the other cells of both states
        stay as they were. */
    method SetDateState(main: Side, sub: Part, v: int)
      modifies this`dateState, this`beforeState
      ensures beforeState == SetCell(old(beforeState), main, sub, Cell(old(dateState), main, sub))
      ensures dateState == SetCell(old(dateState), main, sub, v)
      ensures Cell(beforeState, main, sub) == Cell(old(dateState), main, sub)
      ensures forall m: Side, p: Part :: (m, p) != (main, sub) ==>
        Cell(dateState, m, p) == Cell(old(dateState), m, p) && Cell(beforeState, m, p) == Cell(old(beforeState), m, p)
    {
      beforeState := SetCell(beforeState, main, sub, Cell(dateState, main, sub));
      dateState := SetCell(dateState, main, sub, v);
      forall m: Side, p: Part
        ensures (m, p) != (main, sub) ==>
          Cell(dateState, m, p) == Cell(old(dateState), m, p) && Cell(beforeState, m, p) == Cell(old(beforeState), m, p)
      {
        CellOfSetCell(old(dateState), main, sub, v, m, p);
        CellOfSetCell(old(beforeState), main, sub, Cell(old(dateState), main, sub), m, p);
      }
    }

    /** setSelected(flag, v): only the selected date of that side changes. */
    method SetSelected(flag: Side, v: string)
      modifies this`selectedDate
      ensures flag == Start ==> selectedDate == Selected(v, old(selectedDate).end)
      ensures flag == End ==> selectedDate == Selected(old(selectedDate).start, v)
    {
      if flag == Start {
        selectedDate := selectedDate.(start := v);
      } else {
        selectedDate := selectedDate.(end := v);
      }
    }

    /** Setting a cell twice: the second call leaves the first value in the
        before-state and the second in the current state. */
    method SetDateStateTwice(main: Side, sub: Part, v: int, w: int)
      modifies this`dateState, this`beforeState
      ensures Cell(beforeState, main, sub) == v && Cell(dateState, main, sub) == w
      ensures dateState == SetCell(old(dateState), main, sub, w)
    {
      SetDateState(main, sub, v);
      SetDateState(main, sub, w);
      SetCellTwice(old(dateState), main, sub, v, w);
    }
  }
}
