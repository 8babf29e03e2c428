/**
 The side panel of the simulator tab: ten input controls whose current values
 are collected into the one-row frame the classifier is scored on.
 A control the operator has not touched shows its default; the ranges are
 enforced by the controls themselves.
 */
module ScenarioForm {

  datatype Option<T> = None | Some(value: T)

  datatype Geography = France | Germany | Spain

  datatype Gender = Female | Male

  /** The ten features the classifier consumes. */
  datatype CustomerRecord = CustomerRecord(
    creditScore: int,
    geography: Geography,
    gender: Gender,
    age: int,
    tenure: int,
    balance: real,
    numOfProducts: int,
    hasCrCard: int,
    isActiveMember: int,
    estimatedSalary: real
  )

  /** The domain each control enforces. */
  predicate Valid(c: CustomerRecord) {
    && 300 <= c.creditScore <= 850
    && 18 <= c.age <= 92
    && 0 <= c.tenure <= 10
    && c.balance >= 0.0
    && 1 <= c.numOfProducts <= 4
    && c.hasCrCard in {0, 1}
    && c.isActiveMember in {0, 1}
    && c.estimatedSalary >= 0.0
  }

  // ---------------------------------------------------------------------------
  // The controls
  // ---------------------------------------------------------------------------

  /** `st.slider(label, lo, hi, default)`: what the operator asked for, kept inside [lo, hi]. */
  function Slider(lo: int, hi: int, default: int, moved: Option<int>): (v: int)
    requires lo <= default <= hi
    ensures lo <= v <= hi
    ensures moved.None? ==> v == default
    ensures moved.Some? && lo <= moved.value <= hi ==> v == moved.value
  {
    match moved
    case None => default
    case Some(x) => if x < lo then lo else if x > hi then hi else x
  }

  /** `st.number_input(label, min_value=lo, value=default)`: no upper bound. */
  function NumberInput(lo: real, default: real, entered: Option<real>): (v: real)
    requires lo <= default
    ensures lo <= v
    ensures entered.None? ==> v == default
    ensures entered.Some? && lo <= entered.value ==> v == entered.value
  {
    match entered
    case None => default
    case Some(x) => if x < lo then lo else x
  }

  /** `st.selectbox(label, options)`: the first option until another one is picked. */
  function SelectBox<T>(options: seq<T>, picked: Option<nat>): (v: T)
    requires |options| > 0
    ensures v in options
    ensures picked.None? ==> v == options[0]
    ensures picked.Some? && picked.value < |options| ==> v == options[picked.value]
  {
    match picked
    case Some(i) => if i < |options| then options[i] else options[0]
    case None => options[0]
  }

  /** What the operator has done with each control; None means untouched. */
  datatype Controls = Controls(
    creditScore: Option<int>,
    age: Option<int>,
    tenure: Option<int>,
    balance: Option<real>,
    estimatedSalary: Option<real>,
    numOfProducts: Option<int>,
    geography: Option<nat>,
    gender: Option<nat>,
    hasCrCard: Option<nat>,
    isActiveMember: Option<nat>
  )

  const Untouched := Controls(None, None, None, None, None, None, None, None, None, None)

  /** `user_input_features()`: read every control and build the record. */
  function UserInputFeatures(c: Controls): (r: CustomerRecord)
    ensures Valid(r)
    ensures c.creditScore.None? ==> r.creditScore == 600
    ensures c.age.None? ==> r.age == 40
    ensures c.tenure.None? ==> r.tenure == 3
    ensures c.balance.None? ==> r.balance == 60000.0
    ensures c.estimatedSalary.None? ==> r.estimatedSalary == 50000.0
    ensures c.numOfProducts.None? ==> r.numOfProducts == 2
    ensures c.creditScore.Some? && 300 <= c.creditScore.value <= 850 ==> r.creditScore == c.creditScore.value
    ensures c.age.Some? && 18 <= c.age.value <= 92 ==> r.age == c.age.value
    ensures c.tenure.Some? && 0 <= c.tenure.value <= 10 ==> r.tenure == c.tenure.value
    ensures c.balance.Some? && c.balance.value >= 0.0 ==> r.balance == c.balance.value
    ensures c.estimatedSalary.Some? && c.estimatedSalary.value >= 0.0 ==> r.estimatedSalary == c.estimatedSalary.value
    ensures c.numOfProducts.Some? && 1 <= c.numOfProducts.value <= 4 ==> r.numOfProducts == c.numOfProducts.value
    ensures c.geography.None? ==> r.geography == France
    ensures c.geography.Some? && c.geography.value < 3 ==> r.geography == [France, Germany, Spain][c.geography.value]
    ensures c.gender.None? ==> r.gender == Female
    ensures c.gender.Some? && c.gender.value < 2 ==> r.gender == [Female, Male][c.gender.value]
    ensures c.hasCrCard.None? ==> r.hasCrCard == 1
    ensures c.hasCrCard.Some? && c.hasCrCard.value < 2 ==> r.hasCrCard == [1, 0][c.hasCrCard.value]
    ensures c.isActiveMember.None? ==> r.isActiveMember == 1
    ensures c.isActiveMember.Some? && c.isActiveMember.value < 2 ==> r.isActiveMember == [1, 0][c.isActiveMember.value]
  {
    CustomerRecord(
      creditScore := Slider(300, 850, 600, c.creditScore),
      geography := SelectBox([France, Germany, Spain], c.geography),
      gender := SelectBox([Female, Male], c.gender),
      age := Slider(18, 92, 40, c.age),
      tenure := Slider(0, 10, 3, c.tenure),
      balance := NumberInput(0.0, 60000.0, c.balance),
      numOfProducts := Slider(1, 4, 2, c.numOfProducts),
      hasCrCard := SelectBox([1, 0], c.hasCrCard),
      isActiveMember := SelectBox([1, 0], c.isActiveMember),
      estimatedSalary := NumberInput(0.0, 50000.0, c.estimatedSalary)
    )
  }

  /** The record shown before the operator touches anything. */
  lemma DefaultRecord()
    ensures UserInputFeatures(Untouched) == CustomerRecord(600, France, Female, 40, 3, 60000.0, 2, 1, 1, 50000.0)
  {
  }

  /** Every valid record can be entered through the controls. */
  lemma EveryValidRecordIsReachable(r: CustomerRecord)
    requires Valid(r)
    ensures UserInputFeatures(EntryFor(r)) == r
  {
  }

  /** The control settings that enter a given record. */
  function EntryFor(r: CustomerRecord): Controls {
    Controls(
      Some(r.creditScore), Some(r.age), Some(r.tenure), Some(r.balance), Some(r.estimatedSalary),
      Some(r.numOfProducts),
      Some(match r.geography case France => 0 case Germany => 1 case Spain => 2),
      Some(match r.gender case Female => 0 case Male => 1),
      Some(if r.hasCrCard == 1 then 0 else 1),
      Some(if r.isActiveMember == 1 then 0 else 1)
    )
  }

  // ---------------------------------------------------------------------------
  // The one-row frame handed to the classifier
  // ---------------------------------------------------------------------------

  /** A cell of the frame. */
  datatype Cell = IntCell(i: int) | RealCell(x: real) | TextCell(s: string)

  /** The column names the classifier was trained with, exactly. */
  const ModelColumns: seq<string> := [
    "CreditScore", "Geography", "Gender", "Age", "Tenure",
    "Balance", "NumOfProducts", "HasCrCard", "IsActiveMember", "EstimatedSalary"
  ]

  function GeographyName(g: Geography): string {
    match g
    case France => "France"
    case Germany => "Germany"
    case Spain => "Spain"
  }

  function ParseGeography(s: string): (g: Option<Geography>)
    ensures g.Some? <==> s in {"France", "Germany", "Spain"}
  {
    if s == "France" then Some(France)
    else if s == "Germany" then Some(Germany)
    else if s == "Spain" then Some(Spain)
    else None
  }

  function GenderName(g: Gender): string {
    match g
    case Female => "Female"
    case Male => "Male"
  }

  function ParseGender(s: string): (g: Option<Gender>)
    ensures g.Some? <==> s in {"Female", "Male"}
  {
    if s == "Female" then Some(Female)
    else if s == "Male" then Some(Male)
    else None
  }

  /** A one-row frame: its columns in order, each name beside its cell. */
  type FrameRow = seq<(string, Cell)>

  function ColumnNames(row: FrameRow): (names: seq<string>)
    ensures |names| == |row|
    ensures forall i :: 0 <= i < |row| ==> names[i] == row[i].0
  {
    seq(|row|, i requires 0 <= i < |row| => row[i].0)
  }

  /** `pd.DataFrame(data, index=[0])`: the record under the model's column names, in dict order. */
  function ToFrameRow(r: CustomerRecord): (row: FrameRow)
    ensures ColumnNames(row) == ModelColumns
  {
    [
      ("CreditScore", IntCell(r.creditScore)),
      ("Geography", TextCell(GeographyName(r.geography))),
      ("Gender", TextCell(GenderName(r.gender))),
      ("Age", IntCell(r.age)),
      ("Tenure", IntCell(r.tenure)),
      ("Balance", RealCell(r.balance)),
      ("NumOfProducts", IntCell(r.numOfProducts)),
      ("HasCrCard", IntCell(r.hasCrCard)),
      ("IsActiveMember", IntCell(r.isActiveMember)),
      ("EstimatedSalary", RealCell(r.estimatedSalary))
    ]
  }

  /** The column names are pairwise distinct. */
  lemma ColumnsDistinct()
    ensures |ModelColumns| == 10
    ensures forall i, j :: 0 <= i < j < |ModelColumns| ==> ModelColumns[i] != ModelColumns[j]
  {
  }

  /** The cell of the first column with a given name. */
  function Lookup(row: FrameRow, k: string): (c: Option<Cell>)
    ensures c.Some? <==> k in ColumnNames(row)
  {
    if row == [] then None
    else if row[0].0 == k then Some(row[0].1)
    else
      assert ColumnNames(row) == [row[0].0] + ColumnNames(row[1..]);
      Lookup(row[1..], k)
  }

  /** With distinct column names, looking a column up by its name finds its own cell. */
  lemma {:induction false} LookupByName(row: FrameRow, i: nat)
    requires forall a, b :: 0 <= a < b < |row| ==> row[a].0 != row[b].0
    requires i < |row|
    ensures Lookup(row, row[i].0) == Some(row[i].1)
  {
    if i > 0 {
      LookupByName(row[1..], i - 1);
    }
  }

  function IntAt(row: FrameRow, k: string): Option<int> {
    match Lookup(row, k)
    case Some(IntCell(n)) => Some(n)
    case _ => None
  }

  function RealAt(row: FrameRow, k: string): Option<real> {
    match Lookup(row, k)
    case Some(RealCell(x)) => Some(x)
    case _ => None
  }

  function TextAt(row: FrameRow, k: string): Option<string> {
    match Lookup(row, k)
    case Some(TextCell(t)) => Some(t)
    case _ => None
  }

  function GeographyAt(row: FrameRow): Option<Geography> {
    match TextAt(row, "Geography")
    case Some(t) => ParseGeography(t)
    case None => None
  }

  function GenderAt(row: FrameRow): Option<Gender> {
    match TextAt(row, "Gender")
    case Some(t) => ParseGender(t)
    case None => None
  }

  /** This model's own by-name decoder of a frame row, used for the round trip: None on a missing column or a cell of the wrong kind. */
  function FromFrameRow(row: FrameRow): Option<CustomerRecord> {
    var cs, geo, gen := IntAt(row, "CreditScore"), GeographyAt(row), GenderAt(row);
    var age, ten, bal, np := IntAt(row, "Age"), IntAt(row, "Tenure"), RealAt(row, "Balance"), IntAt(row, "NumOfProducts");
    var card, active, sal := IntAt(row, "HasCrCard"), IntAt(row, "IsActiveMember"), RealAt(row, "EstimatedSalary");
    if cs.Some? && geo.Some? && gen.Some? && age.Some? && ten.Some? && bal.Some? && np.Some?
       && card.Some? && active.Some? && sal.Some?
    then
      Some(CustomerRecord(cs.value, geo.value, gen.value, age.value, ten.value, bal.value, np.value,
                          card.value, active.value, sal.value))
    else None
  }

  /** The record's frame row has no repeated column name. */
  lemma FrameRowNamesDistinct(r: CustomerRecord)
    ensures var row := ToFrameRow(r); forall a, b :: 0 <= a < b < |row| ==> row[a].0 != row[b].0
  {
  }

  /** The identity columns hold the matching fields of the record. */
  lemma IdentityCells(r: CustomerRecord)
    ensures IntAt(ToFrameRow(r), "CreditScore") == Some(r.creditScore)
    ensures GeographyAt(ToFrameRow(r)) == Some(r.geography)
    ensures GenderAt(ToFrameRow(r)) == Some(r.gender)
  {
    assert ParseGeography(GeographyName(r.geography)) == Some(r.geography);
    assert ParseGender(GenderName(r.gender)) == Some(r.gender);
    FrameRowNamesDistinct(r);
    LookupByName(ToFrameRow(r), 0);
    LookupByName(ToFrameRow(r), 1);
    LookupByName(ToFrameRow(r), 2);
  }

  /** The relationship columns hold the matching fields of the record. */
  lemma RelationshipCells(r: CustomerRecord)
    ensures IntAt(ToFrameRow(r), "Age") == Some(r.age)
    ensures IntAt(ToFrameRow(r), "Tenure") == Some(r.tenure)
    ensures RealAt(ToFrameRow(r), "Balance") == Some(r.balance)
    ensures IntAt(ToFrameRow(r), "NumOfProducts") == Some(r.numOfProducts)
  {
    FrameRowNamesDistinct(r);
    LookupByName(ToFrameRow(r), 3);
    LookupByName(ToFrameRow(r), 4);
    LookupByName(ToFrameRow(r), 5);
    LookupByName(ToFrameRow(r), 6);
  }

  /** The membership and salary columns hold the matching fields of the record. */
  lemma MembershipCells(r: CustomerRecord)
    ensures IntAt(ToFrameRow(r), "HasCrCard") == Some(r.hasCrCard)
    ensures IntAt(ToFrameRow(r), "IsActiveMember") == Some(r.isActiveMember)
    ensures RealAt(ToFrameRow(r), "EstimatedSalary") == Some(r.estimatedSalary)
  {
    FrameRowNamesDistinct(r);
    LookupByName(ToFrameRow(r), 7);
    LookupByName(ToFrameRow(r), 8);
    LookupByName(ToFrameRow(r), 9);
  }

  /** A row whose cells hold the fields of a record is read back as that record. */
  lemma ReadBack(row: FrameRow, r: CustomerRecord)
    requires IntAt(row, "CreditScore") == Some(r.creditScore)
    requires GeographyAt(row) == Some(r.geography)
    requires GenderAt(row) == Some(r.gender)
    requires IntAt(row, "Age") == Some(r.age)
    requires IntAt(row, "Tenure") == Some(r.tenure)
    requires RealAt(row, "Balance") == Some(r.balance)
    requires IntAt(row, "NumOfProducts") == Some(r.numOfProducts)
    requires IntAt(row, "HasCrCard") == Some(r.hasCrCard)
    requires IntAt(row, "IsActiveMember") == Some(r.isActiveMember)
    requires RealAt(row, "EstimatedSalary") == Some(r.estimatedSalary)
    ensures FromFrameRow(row) == Some(r)
  {
  }

  /** The frame carries the whole record under the model's column names. */
  lemma FrameRowRoundTrip(r: CustomerRecord)
    ensures FromFrameRow(ToFrameRow(r)) == Some(r)
  {
    IdentityCells(r);
    RelationshipCells(r);
    MembershipCells(r);
    ReadBack(ToFrameRow(r), r);
  }
}
