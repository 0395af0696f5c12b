/**
 * The query parameters of a reservation listing (GetReservationQueryDto):
 * `take`, `page`, `hashtag_id` and `category_id`.
 *
 * Each field is first turned into a number by `Number(value)`, keeps its
 * class default when the request does not carry it, and is then checked
 * against the constraints declared on it (IsInt, Min, Max). Every field is
 * checked, and every field that breaks a constraint is reported together
 * with the constraints it breaks.
 */
module ReservationQuery {
  import opened Wrappers

  /** What `Number(value)` can produce: a finite number, NaN or an infinity. */
  datatype JsNumber = Finite(x: real) | NaN | PositiveInfinity | NegativeInfinity

  /** A field of the DTO instance: a number, or the SelectAllType.ALL default. */
  datatype FieldValue = Num(n: JsNumber) | SelectAll

  /** The validation decorators that appear on the DTO. */
  datatype Constraint = IsInt | Min(min: int) | Max(max: int)

  datatype Field = Take | Page | HashtagId | CategoryId

  /** The fields a request carries, each already passed through `Number(value)`. */
  datatype RawQuery = RawQuery(
    take: Option<JsNumber>,
    page: Option<JsNumber>,
    hashtagId: Option<JsNumber>,
    categoryId: Option<JsNumber>)

  /** A hashtag or category filter: every one, or one id. */
  datatype Filter = All | Id(id: int)

  /** A query that passed validation. */
  datatype ValidQuery = ValidQuery(take: int, page: int, hashtagId: Filter, categoryId: Filter)

  /** One rejected field and the constraints its value breaks. */
  datatype FieldError = FieldError(field: Field, violated: seq<Constraint>)

  const DEFAULT_TAKE: int := 20
  const MIN_TAKE: int := 1
  const MAX_TAKE: int := 100
  const DEFAULT_PAGE: int := 0
  const MIN_PAGE: int := 0
  const MIN_ID: int := 0

  /** The fields in declaration order, which is the order they are checked in. */
  const FIELDS: seq<Field> := [Take, Page, HashtagId, CategoryId]

  /** The class initialiser of each field. */
  function Default(f: Field): FieldValue {
    match f
    case Take => Num(Finite(DEFAULT_TAKE as real))
    case Page => Num(Finite(DEFAULT_PAGE as real))
    case HashtagId => SelectAll
    case CategoryId => SelectAll
  }

  /** The constraint decorators declared on each field. */
  function Constraints(f: Field): seq<Constraint> {
    match f
    case Take => [IsInt, Min(MIN_TAKE), Max(MAX_TAKE)]
    case Page => [IsInt, Min(MIN_PAGE)]
    case HashtagId => [IsInt, Min(MIN_ID)]
    case CategoryId => [IsInt, Min(MIN_ID)]
  }

  function Provided(q: RawQuery, f: Field): Option<JsNumber> {
    match f
    case Take => q.take
    case Page => q.page
    case HashtagId => q.hashtagId
    case CategoryId => q.categoryId
  }

  /** The value the field holds once the request's fields are copied over the defaults. */
  function ValueOf(q: RawQuery, f: Field): FieldValue {
    match Provided(q, f)
    case None => Default(f)
    case Some(n) => Num(n)
  }

  /** `Number.isInteger`: finite and without a fractional part. */
  predicate IsInteger(n: JsNumber) {
    n.Finite? && n.x.Floor as real == n.x
  }

  /**
   * Whether a constraint accepts a value. Min and Max compare numerically, so
   * NaN fails both and an infinity passes the bound on its own side. The
   * select-all sentinel passes every constraint.
   */
  predicate Holds(c: Constraint, v: FieldValue) {
    match v
    case SelectAll => true
    case Num(n) =>
      match c
      case IsInt => IsInteger(n)
      case Min(m) => n.PositiveInfinity? || (n.Finite? && n.x >= m as real)
      case Max(m) => n.NegativeInfinity? || (n.Finite? && n.x <= m as real)
  }

  /** The constraints of `cs` that `v` breaks, in the order they are declared. */
  function Violated(cs: seq<Constraint>, v: FieldValue): (r: seq<Constraint>)
    ensures forall c :: c in r <==> c in cs && !Holds(c, v)
    ensures |r| <= |cs|
  {
    if cs == [] then []
    else
      var rest := Violated(cs[1..], v);
      assert forall c :: c in cs <==> c == cs[0] || c in cs[1..];
      if Holds(cs[0], v) then rest else [cs[0]] + rest
  }

  /**
   * The acceptance rule the DTO documents, stated without its decorator list:
   * an absent field is fine, a provided `take` must be an integer from 1 to
   * 100, and a provided `page`, `hashtag_id` or `category_id` an integer of at
   * least 0. Out-of-range values are rejected, never clamped.
   */
  predicate Acceptable(f: Field, v: Option<JsNumber>) {
    match v
    case None => true
    case Some(n) =>
      if f == Take then IsInteger(n) && MIN_TAKE as real <= n.x <= MAX_TAKE as real
      else IsInteger(n) && n.x >= 0.0
  }

  /** The constraints that field `f` of `q` breaks: none exactly when the documented rule accepts it. */
  function FieldViolations(q: RawQuery, f: Field): (r: seq<Constraint>)
    ensures forall c :: c in r <==> c in Constraints(f) && !Holds(c, ValueOf(q, f))
    ensures r == [] <==> Acceptable(f, Provided(q, f))
  {
    var cs, v := Constraints(f), ValueOf(q, f);
    var r := Violated(cs, v);
    assert r != [] ==> r[0] in r;
    assert cs[0] in cs && cs[1] in cs;
    assert (r == []) == (Holds(cs[0], v) && Holds(cs[1], v) && (f == Take ==> Holds(cs[2], v))) by {
      if f == Take {
        assert cs[2] in cs;
      }
    }
    r
  }

  /** Each field appears at most once. */
  predicate NoRepeatedFields(fs: seq<Field>) {
    forall i, j :: 0 <= i < j < |fs| ==> fs[i] != fs[j]
  }

  /** Each field is reported at most once, as class-validator gives one error per property. */
  predicate NoRepeatedErrorFields(errors: seq<FieldError>) {
    forall i, j :: 0 <= i < j < |errors| ==> errors[i].field != errors[j].field
  }

  /** The errors of the fields in `fs`: exactly the fields that break a constraint, with what they break. */
  function ErrorsOver(q: RawQuery, fs: seq<Field>): (r: seq<FieldError>)
    requires NoRepeatedFields(fs)
    ensures NoRepeatedErrorFields(r)
    ensures forall e :: e in r ==> e.field in fs && e.violated == FieldViolations(q, e.field) && e.violated != []
    ensures forall f :: f in fs && FieldViolations(q, f) != [] ==> FieldError(f, FieldViolations(q, f)) in r
    ensures |r| <= |fs|
  {
    if fs == [] then []
    else
      var rest := ErrorsOver(q, fs[1..]);
      var v := FieldViolations(q, fs[0]);
      assert forall f :: f in fs <==> f == fs[0] || f in fs[1..];
      if v == [] then rest else [FieldError(fs[0], v)] + rest
  }

  /** The integer a validated numeric field holds. */
  function IntOf(v: FieldValue): int {
    if v.Num? && v.n.Finite? then v.n.x.Floor else 0
  }

  /** The filter a validated id field holds. */
  function FilterOf(v: FieldValue): Filter {
    if v.Num? && v.n.Finite? then Id(v.n.x.Floor) else All
  }

  /** The bounds every validated query keeps. */
  predicate InBounds(v: ValidQuery) {
    && MIN_TAKE <= v.take <= MAX_TAKE
    && v.page >= MIN_PAGE
    && (v.hashtagId.Id? ==> v.hashtagId.id >= MIN_ID)
    && (v.categoryId.Id? ==> v.categoryId.id >= MIN_ID)
  }

  /** An absent number field takes its default; a provided one is kept exactly. */
  predicate KeepsNumber(raw: Option<JsNumber>, default: int, n: int) {
    match raw
    case None => n == default
    case Some(x) => x == Finite(n as real)
  }

  /** An absent id field selects all; a provided one becomes a filter on exactly that id. */
  predicate KeepsFilter(raw: Option<JsNumber>, filter: Filter) {
    match raw
    case None => filter == All
    case Some(x) => filter.Id? && x == Finite(filter.id as real)
  }

  /** The validated query carries what the request carried, and the defaults for the rest. */
  predicate Keeps(q: RawQuery, v: ValidQuery) {
    && KeepsNumber(q.take, DEFAULT_TAKE, v.take)
    && KeepsNumber(q.page, DEFAULT_PAGE, v.page)
    && KeepsFilter(q.hashtagId, v.hashtagId)
    && KeepsFilter(q.categoryId, v.categoryId)
  }

  /** Every field is among the checked ones. */
  lemma AllFieldsListed(f: Field)
    ensures f in FIELDS
  {
  }

  /**
   * Validation of a request's query. It succeeds exactly when every field
   * meets the documented rule, and then returns the provided values unchanged
   * with defaults for the rest. Otherwise it lists every offending field, and
   * only those.
   */
  function Validate(q: RawQuery): (r: Result<ValidQuery, seq<FieldError>>)
    ensures r.Success? <==> forall f :: Acceptable(f, Provided(q, f))
    ensures r.Success? ==> InBounds(r.value) && Keeps(q, r.value)
    ensures r.Failure? ==> r.error != [] && |r.error| <= |FIELDS| && NoRepeatedErrorFields(r.error)
    ensures r.Failure? ==> forall e :: e in r.error ==>
      !Acceptable(e.field, Provided(q, e.field)) && e.violated == FieldViolations(q, e.field)
    ensures r.Failure? ==> forall f :: !Acceptable(f, Provided(q, f)) ==>
      FieldError(f, FieldViolations(q, f)) in r.error
  {
    var errors := ErrorsOver(q, FIELDS);
    if errors == [] then
      assert forall f :: Acceptable(f, Provided(q, f)) by {
        forall f ensures Acceptable(f, Provided(q, f)) {
          AllFieldsListed(f);
        }
      }
      Success(ValidQuery(
        IntOf(ValueOf(q, Take)),
        IntOf(ValueOf(q, Page)),
        FilterOf(ValueOf(q, HashtagId)),
        FilterOf(ValueOf(q, CategoryId))))
    else
      assert errors[0] in errors;
      Failure(errors)
  }

  /** With no field given, the defaults pass their own constraints: 20 rows of page 0, no filter. */
  lemma EmptyQueryValidates(q: RawQuery)
    requires q.take.None? && q.page.None? && q.hashtagId.None? && q.categoryId.None?
    ensures Validate(q) == Success(ValidQuery(DEFAULT_TAKE, DEFAULT_PAGE, All, All))
  {
    forall f ensures Acceptable(f, Provided(q, f)) { }
    var r := Validate(q);
    assert r.Success?;
    assert Keeps(q, r.value);
    assert r.value.take == DEFAULT_TAKE && r.value.page == DEFAULT_PAGE;
    assert r.value.hashtagId == All && r.value.categoryId == All;
  }
}
