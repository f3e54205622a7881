/** The expense record, the string slicing that the month filter relies on,
    and the mapping from a loaded plain object back to a record. */
module Expenses {

  datatype Option<T> = None | Some(value: T)

  /** One expense entry. Amounts are exact integers (for example cents);
      the fields never change once the record is built. */
  datatype Expense = Expense(category: string, amount: int, date: string, note: string)

  /** JavaScript truthiness of an optional string argument:
      `null`, `undefined` (both `None`) and `""` are falsy. */
  predicate Truthy(s: Option<string>)
  {
    s.Some? && s.value != ""
  }

  /** `s.slice(0, n)`: the first `n` characters, or all of `s` when it is shorter. */
  function Prefix(s: string, n: nat): (r: string)
    ensures r <= s
    ensures |r| == if |s| < n then |s| else n
  {
    if |s| <= n then s else s[..n]
  }

  /** The `YYYY-MM` key of a date: `date.slice(0, 7)`. */
  function MonthOf(date: string): (m: string)
    ensures |m| <= 7 && m <= date
    ensures |date| <= 7 ==> m == date
  {
    Prefix(date, 7)
  }

  /** A date matches a month exactly when the month is seven characters long and
      begins the date, or the date is shorter than seven characters and equals it. */
  lemma MonthOfMatches(date: string, month: string)
    ensures MonthOf(date) == month <==> (|month| == 7 && month <= date) || (|month| < 7 && date == month)
  {}

  /** Only the empty date falls in the empty month. */
  lemma EmptyMonthOnlyEmptyDate(date: string)
    ensures MonthOf(date) == "" <==> date == ""
  {}

  /** The stored date taken from an ISO timestamp `YYYY-MM-DDTHH:mm:ss.sssZ`
      (its first ten characters) has the timestamp's first seven characters as its month. */
  lemma ClockDateMonth(iso: string)
    ensures MonthOf(Prefix(iso, 10)) == Prefix(iso, 7)
  {}

  /** A record as it comes back from the saved file: `note` may be absent. */
  datatype StoredObject = StoredObject(category: string, amount: int, date: string, note: Option<string>)

  /** `Expense.fromObject`: copies the fields and replaces a falsy note by `""`. */
  function FromObject(obj: StoredObject): (e: Expense)
    ensures e.category == obj.category && e.amount == obj.amount && e.date == obj.date
    ensures obj.note.Some? ==> e.note == obj.note.value
    ensures obj.note.None? ==> e.note == ""
  {
    Expense(obj.category, obj.amount, obj.date, if Truthy(obj.note) then obj.note.value else "")
  }

  /** The plain object a record is written out as. */
  function ToObject(e: Expense): (obj: StoredObject)
    ensures obj.note.Some?
    ensures FromObject(obj) == e
  {
    StoredObject(e.category, e.amount, e.date, Some(e.note))
  }

  /** Loading then writing out gives back the same object exactly when it had a note. */
  lemma ObjectRoundTrip(obj: StoredObject)
    ensures ToObject(FromObject(obj)) == obj <==> obj.note.Some?
  {}

  /** `data.map(Expense.fromObject)`. */
  function FromObjects(objs: seq<StoredObject>): (r: seq<Expense>)
    ensures |r| == |objs|
    ensures forall i :: 0 <= i < |objs| ==> r[i] == FromObject(objs[i])
  {
    if objs == [] then [] else [FromObject(objs[0])] + FromObjects(objs[1..])
  }

  /** The object list a sequence of records is written out as. */
  function ToObjects(s: seq<Expense>): (r: seq<StoredObject>)
    ensures |r| == |s|
    ensures forall i :: 0 <= i < |s| ==> r[i] == ToObject(s[i])
  {
    if s == [] then [] else [ToObject(s[0])] + ToObjects(s[1..])
  }

  /** Writing out a sequence of records and loading it back yields the same sequence. */
  lemma ObjectsRoundTrip(s: seq<Expense>)
    ensures FromObjects(ToObjects(s)) == s
  {}
}
