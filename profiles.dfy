/** Candidate profile records as the recruitment endpoints send them, and the
    rows and date marks the confidential-data table shows. */
module Profiles {
  import opened Text

  /** A profile record; a field the server leaves out reads as "". */
  datatype Profile = Profile(
    name: string, currentDesignation: string, designation: string, location: string,
    currentCompany: string, company: string,
    date1: string, date2: string, date3: string, date4: string,
    ctc: string, email: string, mobile: string)

  datatype Row = Row(
    name: string, designation: string, location: string, company: string,
    date1: string, date2: string, date3: string, date4: string)

  /** One record as a table row: designation falls back from the current one
      to the plain one, the company likewise, and every missing field is "". */
  function ToRow(p: Profile): (r: Row)
    ensures r.name == p.name && r.location == p.location
    ensures r.designation == (if p.currentDesignation != "" then p.currentDesignation else p.designation)
    ensures r.company == (if p.currentCompany != "" then p.currentCompany else p.company)
    ensures r.date1 == p.date1 && r.date2 == p.date2 && r.date3 == p.date3 && r.date4 == p.date4
  {
    Row(OrElse(p.name, ""), OrElse(p.currentDesignation, OrElse(p.designation, "")), OrElse(p.location, ""),
        OrElse(p.currentCompany, OrElse(p.company, "")),
        OrElse(p.date1, ""), OrElse(p.date2, ""), OrElse(p.date3, ""), OrElse(p.date4, ""))
  }

  /** `list.map(...)`: one row per record, in order. */
  function ToRows(ps: seq<Profile>): (rs: seq<Row>)
    ensures |rs| == |ps|
    ensures forall i :: 0 <= i < |ps| ==> rs[i] == ToRow(ps[i])
  {
    seq(|ps|, i requires 0 <= i < |ps| => ToRow(ps[i]))
  }

  /** Mapping a concatenation maps each part. */
  lemma ToRowsAppend(a: seq<Profile>, b: seq<Profile>)
    ensures ToRows(a + b) == ToRows(a) + ToRows(b)
  {
    assert forall i :: 0 <= i < |a + b| ==> ToRows(a + b)[i] == (ToRows(a) + ToRows(b))[i];
  }

  const TickMark := "\U{2713}"

  datatype DateMark = NoMark | Tick(red: bool)

  /** `renderDate`: a tick when the value contains one, red when the value also
      says "red" in any ASCII case; nothing otherwise. */
  function RenderDate(v: string): (m: DateMark)
    ensures m.Tick? <==> Contains(v, TickMark)
    ensures m.Tick? ==> (m.red <==> Contains(Lower(v), "red"))
  {
    if Contains(v, TickMark) then Tick(Contains(Lower(v), "red")) else NoMark
  }

  /** "red" alone draws nothing; a tick with "RED" is drawn red. */
  lemma RedNeedsTick()
    ensures RenderDate("red") == NoMark
    ensures RenderDate(TickMark + " RED") == Tick(true)
    ensures RenderDate(TickMark) == Tick(false)
  {
    ContainsSelf(TickMark, "");
    assert OccursAt(TickMark + " RED", TickMark, 0);
    ContainsIff(TickMark + " RED", TickMark);
    var low := Lower(TickMark + " RED");
    assert low[2..5] == "red";
    assert OccursAt(low, "red", 2);
    ContainsIff(low, "red");
    assert !OccursAt(Lower(TickMark), "red", 0);
    ContainsIff(Lower(TickMark), "red");
    forall i | 0 <= i < 3 ensures !OccursAt("red", TickMark, i) {
      assert "red"[i..i + 1][0] == "red"[i];
    }
    ContainsIff("red", TickMark);
  }

  datatype View = Demo | Service

  /** The table a path asks for: the demo one when it mentions "/client/demo". */
  function ViewForPath(path: string): View {
    if Contains(path, "/client/demo") then Demo else Service
  }
}
