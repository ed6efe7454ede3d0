/** The filters of a preset, read from whatever was stored under old and new names into one normal
    form, and written back. */
module FilterSettings {
  import opened Common
  import opened EmailSearch
  import opened FilterValues
  import opened PaymentSelection
  import opened Text

  const COLUMNS: set<Column> := {
    ManuallyUsed, AuthType, PhoneBindingState, PaymentLinkPlatform, PaymentLinkGenerated, SubscriptionType,
    AccountValidity, CodexState, Sub2apiState, OaipayState, ZeroAmountEligibilityState, GcashPaymentMethodState,
    IdeaSubmitState, SubmitState, HasSubmitted}

  datatype FilterSet = FilterSet(
    search: string, status: seq<string>, columns: map<Column, seq<string>>, payment: seq<Choice>,
    sortOrder: string, registration: string, pageSize: int)

  // ---------------------------------------------------------------- reading

  /** A column's own entry wins, even when it is empty, over an entry of the same name outside. */
  function ColumnSource(source: Fields, columns: Fields, k: Field): Json {
    if k in columns then columns[k] else Get(source, k)
  }

  function Direction(env: Env, v: Json, default: string): string {
    var t := Lower(Trim(env, v, 8));
    if t == "asc" || t == "desc" then t else default
  }

  function PageSizeOf(env: Env, v: Json): int {
    var n := if Truthy(v) then SafeInt(env, v) else 20;
    if 1 <= n <= 200 then n else 20
  }

  function SearchSource(source: Fields, columns: Fields): Json {
    Or(Or(Get(source, Search), Get(source, Email)), Get(columns, Email))
  }

  function StatusSource(source: Fields, columns: Fields): Json {
    Or(Or(Get(source, StatusList), Get(source, FilterStatus)), Get(columns, StatusList))
  }

  function SortSource(source: Fields, sort: Fields): Json {
    Or(Or(Get(source, SortOrder), Get(source, SubscriptionExpirySortOrder)), Or(Get(sort, SortOrder), Get(sort, Order)))
  }

  function RegistrationSource(source: Fields, sort: Fields): Json {
    Or(Or(Get(source, RegistrationSortOrder), Get(source, CreatedAtSortOrder)),
       Or(Get(sort, RegistrationSortOrder), Get(sort, CreatedAtOrder)))
  }

  function ColumnsOf(v: Json): Fields {
    FieldsOf(Get(FieldsOf(v), ColumnFilters))
  }

  function SortOf(v: Json): Fields {
    FieldsOf(Get(FieldsOf(v), Sort))
  }

  function ReadSearch(env: Env, v: Json): string {
    SearchText(Str(env, SearchSource(FieldsOf(v), ColumnsOf(v))))
  }

  function ReadStatus(env: Env, v: Json): seq<string> {
    ValueList(env, StatusSource(FieldsOf(v), ColumnsOf(v)))
  }

  function ReadColumn(env: Env, v: Json, c: Column): seq<string> {
    ColumnValues(env, KindOf(c), ColumnSource(FieldsOf(v), ColumnsOf(v), OfColumn(c)))
  }

  function ReadColumns(env: Env, v: Json): map<Column, seq<string>> {
    map c | c in COLUMNS :: ReadColumn(env, v, c)
  }

  function PaymentSource(v: Json): Json {
    ColumnSource(FieldsOf(v), ColumnsOf(v), PaymentMethodSelection)
  }

  function ReadPayment(env: Env, v: Json): seq<Choice> {
    ReadSelection(env, PaymentSource(v))
  }

  function ReadSort(env: Env, v: Json): string {
    Direction(env, SortSource(FieldsOf(v), SortOf(v)), "")
  }

  function ReadRegistration(env: Env, v: Json): string {
    Direction(env, RegistrationSource(FieldsOf(v), SortOf(v)), "desc")
  }

  function ReadPageSize(env: Env, v: Json): int {
    PageSizeOf(env, Or(Get(FieldsOf(v), PageSize), Get(FieldsOf(v), PageSizeOld)))
  }

  function NormalizeFilters(env: Env, v: Json): FilterSet {
    FilterSet(ReadSearch(env, v), ReadStatus(env, v), ReadColumns(env, v), ReadPayment(env, v),
              ReadSort(env, v), ReadRegistration(env, v), ReadPageSize(env, v))
  }

  const NO_FILTERS := FilterSet("", [], map c | c in COLUMNS :: [], [], "", "desc", 20)

  // ---------------------------------------------------------------- writing

  function TextList(vs: seq<string>): Json {
    List(Texts(vs))
  }

  function EncodeColumns(f: FilterSet): Fields {
    (map k | k in f.columns :: OfColumn(k) := TextList(f.columns[k]))
    + map[Email := Text(f.search), StatusList := TextList(f.status), PaymentMethodSelection := EncodeSelection(f.payment)]
  }

  function Written(search: Json, status: Json, columns: Json, sortOrder: Json, registration: Json, pageSize: Json): Fields {
    map[Search := search, StatusList := status, ColumnFilters := columns,
        SortOrder := sortOrder, RegistrationSortOrder := registration, PageSize := pageSize]
  }

  function EncodeFilters(f: FilterSet): Json {
    Object(Written(Text(f.search), TextList(f.status), Object(EncodeColumns(f)),
                   Text(f.sortOrder), Text(f.registration), Number(f.pageSize)))
  }

  // ---------------------------------------------------------------- normal filters

  ghost predicate NormalFilters(env: Env, f: FilterSet) {
    && NormalSearch(f.search) && NormalValues(f.status)
    && f.columns.Keys == COLUMNS && (forall c :: c in COLUMNS ==> NormalColumn(env.words, KindOf(c), f.columns[c]))
    && NormalSelection(f.payment)
    && (f.sortOrder == "" || f.sortOrder == "asc" || f.sortOrder == "desc")
    && (f.registration == "asc" || f.registration == "desc")
    && 1 <= f.pageSize <= 200
  }

  /** The filters after one more reading: only the payment selection may still change. */
  function AgainFilters(f: FilterSet): FilterSet {
    f.(payment := Again(f.payment))
  }

  lemma ReadsAreNormal(env: Env, v: Json)
    ensures NormalSearch(ReadSearch(env, v)) && NormalValues(ReadStatus(env, v)) && NormalSelection(ReadPayment(env, v))
  {
    SelectionIsNormal(env, PaymentSource(v));
    SearchIsNormal(Str(env, SearchSource(FieldsOf(v), ColumnsOf(v))));
    ValueListSpec(env, StatusSource(FieldsOf(v), ColumnsOf(v)), []);
  }

  /** Whatever was stored, the filters read from it are normal. */
  lemma FiltersAreNormal(env: Env, v: Json)
    requires WordsSteady(env.words)
    ensures NormalFilters(env, NormalizeFilters(env, v))
  {
    ReadsAreNormal(env, v);
    forall c | c in COLUMNS ensures NormalColumn(env.words, KindOf(c), ReadColumn(env, v, c)) {
      ColumnNormal(env, KindOf(c), ColumnSource(FieldsOf(v), ColumnsOf(v), OfColumn(c)));
    }
  }

  lemma DirectionRead(env: Env, d: string, default: string)
    requires d == "asc" || d == "desc"
    ensures Direction(env, Text(d), default) == d
  {
    TrimText(env, d, 8);
    assert Stripped(d) && forall i :: 0 <= i < |d| ==> LowerChar(d[i]) == d[i];
    assert forall i :: 0 <= i < |d| ==> Lower(d)[i] == d[i];
    assert Lower(d) == d;
  }

  lemma NoDirection(env: Env, default: string)
    ensures Direction(env, Null, default) == default
  {
    assert Clip("", 8) == "";
  }

  /** What is stored under each name in written filters. */
  lemma WrittenFields(a: Json, b: Json, c: Json, d: Json, e: Json, p: Json)
    ensures var w := Written(a, b, c, d, e, p);
            && Get(w, Search) == a && Get(w, StatusList) == b && Get(w, ColumnFilters) == c && Get(w, SortOrder) == d
            && Get(w, RegistrationSortOrder) == e && Get(w, PageSize) == p
            && Get(w, Email) == Null && Get(w, FilterStatus) == Null && Get(w, Sort) == Null
            && Get(w, SubscriptionExpirySortOrder) == Null && Get(w, CreatedAtSortOrder) == Null && Get(w, PageSizeOld) == Null
  {
  }

  lemma EncodedFields(f: FilterSet)
    ensures var source := FieldsOf(EncodeFilters(f));
            && Get(source, Search) == Text(f.search) && Get(source, StatusList) == TextList(f.status)
            && Get(source, SortOrder) == Text(f.sortOrder) && Get(source, RegistrationSortOrder) == Text(f.registration)
            && Get(source, PageSize) == Number(f.pageSize) && ColumnsOf(EncodeFilters(f)) == EncodeColumns(f)
            && SortOf(EncodeFilters(f)) == map[]
            && Get(source, Email) == Null && Get(source, FilterStatus) == Null
            && Get(source, SubscriptionExpirySortOrder) == Null && Get(source, CreatedAtSortOrder) == Null
            && Get(source, PageSizeOld) == Null
  {
    WrittenFields(Text(f.search), TextList(f.status), Object(EncodeColumns(f)),
                  Text(f.sortOrder), Text(f.registration), Number(f.pageSize));
  }

  lemma EncodedColumns(f: FilterSet)
    ensures var columns := EncodeColumns(f);
            && Get(columns, Email) == Text(f.search) && Get(columns, StatusList) == TextList(f.status)
            && PaymentMethodSelection in columns && columns[PaymentMethodSelection] == EncodeSelection(f.payment)
            && forall c :: c in f.columns ==> OfColumn(c) in columns && columns[OfColumn(c)] == TextList(f.columns[c])
  {
  }

  lemma SearchReadsBack(env: Env, f: FilterSet)
    requires NormalSearch(f.search) && NormalValues(f.status)
    ensures ReadSearch(env, EncodeFilters(f)) == f.search && ReadStatus(env, EncodeFilters(f)) == f.status
  {
    EncodedFields(f);
    EncodedColumns(f);
    SearchIsFixed(f.search);
    ValueListSpec(env, Null, f.status);
    assert Texts([]) == [];
  }

  lemma ColumnReadsBack(env: Env, f: FilterSet, c: Column)
    requires c in f.columns && NormalColumn(env.words, KindOf(c), f.columns[c])
    ensures ReadColumn(env, EncodeFilters(f), c) == f.columns[c]
  {
    EncodedFields(f);
    EncodedColumns(f);
    ColumnFixed(env, KindOf(c), f.columns[c]);
  }

  lemma PaymentReadsBack(env: Env, f: FilterSet)
    requires NormalSelection(f.payment)
    ensures ReadPayment(env, EncodeFilters(f)) == Again(f.payment)
  {
    EncodedFields(f);
    EncodedColumns(f);
    SelectionReadsBack(env, f.payment);
  }

  lemma ColumnsReadBack(env: Env, f: FilterSet)
    requires f.columns.Keys == COLUMNS && forall c :: c in COLUMNS ==> NormalColumn(env.words, KindOf(c), f.columns[c])
    ensures ReadColumns(env, EncodeFilters(f)) == f.columns
  {
    forall c | c in COLUMNS ensures ReadColumn(env, EncodeFilters(f), c) == f.columns[c] {
      ColumnReadsBack(env, f, c);
    }
  }

  lemma SortReadsBack(env: Env, f: FilterSet)
    requires f.sortOrder == "" || f.sortOrder == "asc" || f.sortOrder == "desc"
    ensures ReadSort(env, EncodeFilters(f)) == f.sortOrder
  {
    EncodedFields(f);
    if f.sortOrder != "" { DirectionRead(env, f.sortOrder, ""); } else { NoDirection(env, ""); }
  }

  lemma RegistrationReadsBack(env: Env, f: FilterSet)
    requires (f.registration == "asc" || f.registration == "desc") && 1 <= f.pageSize <= 200
    ensures ReadRegistration(env, EncodeFilters(f)) == f.registration
    ensures ReadPageSize(env, EncodeFilters(f)) == f.pageSize
  {
    EncodedFields(f);
    DirectionRead(env, f.registration, "desc");
  }

  /** Reading normal filters that were written gives them back, the payment selection read once more. */
  lemma FiltersReadBack(env: Env, f: FilterSet)
    requires NormalFilters(env, f)
    ensures NormalizeFilters(env, EncodeFilters(f)) == AgainFilters(f)
  {
    SearchReadsBack(env, f);
    ColumnsReadBack(env, f);
    PaymentReadsBack(env, f);
    SortReadsBack(env, f);
    RegistrationReadsBack(env, f);
  }

  /** A second reading settles the filters; it changes nothing exactly when they were settled before. */
  lemma FiltersSettle(env: Env, f: FilterSet)
    requires NormalFilters(env, f)
    ensures NormalFilters(env, AgainFilters(f)) && SettledSelection(AgainFilters(f).payment)
    ensures AgainFilters(f) == f <==> SettledSelection(f.payment)
  {
    AgainSpec(f.payment);
  }
}
