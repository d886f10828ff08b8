/**
 * The four record kinds of the dashboard, as the storage layer holds them, and
 * the insertion payloads the API accepts for them.
 *
 * Decimal columns (capacities, emissions, amounts) are carried as text, as the
 * schema does; a nullable column is an `Option`, and the matching payload field
 * is an `Optional`, which the validator lets be left out, be `null`, or be given.
 */
module Records {

  type Id = string

  /** A point in time as the server clock reports it (milliseconds); opaque here. */
  type Timestamp = int

  /** A nullable column: `None` is SQL/JSON `null`. */
  datatype Option<T> = None | Some(value: T)

  /** An optional, nullable payload field: left out (`undefined`), `null`, or given. */
  datatype Optional<T> = Absent | Null | Given(value: T)

  /** The `field ?? null` of the create methods: a left-out field is stored as `null`. */
  function OrNull<T>(o: Optional<T>): (r: Option<T>)
    ensures r.Some? <==> o.Given?
    ensures r.Some? ==> r.value == o.value
  {
    match o
    case Given(v) => Some(v)
    case _ => None
  }

  /** How a stored nullable value reads back as a payload field. */
  function Resubmitted<T>(o: Option<T>): (r: Optional<T>)
    ensures r != Absent
    ensures OrNull(r) == o
  {
    match o
    case Some(v) => Given(v)
    case None => Null
  }

  /** The payload field after `?? null` has been applied: left out becomes `null`. */
  function AbsentAsNull<T>(o: Optional<T>): (r: Optional<T>)
    ensures r != Absent
    ensures OrNull(r) == OrNull(o)
    ensures o != Absent ==> r == o
  {
    if o.Absent? then Null else o
  }

  // ---------------------------------------------------------------------------
  // Renewable projects

  datatype RenewableProject = RenewableProject(
    id: Id,
    name: string,
    state: string,
    technology: string,
    capacity: string,
    status: string,
    description: Option<string>,
    investmentAmount: Option<string>,
    completionDate: Option<string>,
    createdAt: Option<Timestamp>)

  datatype InsertRenewableProject = InsertRenewableProject(
    name: string,
    state: string,
    technology: string,
    capacity: string,
    status: string,
    description: Optional<string>,
    investmentAmount: Optional<string>,
    completionDate: Optional<string>)

  /** The record `createProject` (and the seeding loop) builds from a payload. */
  function NewProject(id: Id, p: InsertRenewableProject, now: Timestamp): RenewableProject
  {
    RenewableProject(id, p.name, p.state, p.technology, p.capacity, p.status,
                     OrNull(p.description), OrNull(p.investmentAmount), OrNull(p.completionDate),
                     Some(now))
  }

  /** The payload a client reads back from a stored project. */
  function ProjectPayload(r: RenewableProject): InsertRenewableProject
  {
    InsertRenewableProject(r.name, r.state, r.technology, r.capacity, r.status,
                           Resubmitted(r.description), Resubmitted(r.investmentAmount),
                           Resubmitted(r.completionDate))
  }

  /**
   * A created project reads back as the submitted payload, with every left-out
   * optional field turned into `null`, plus the server-assigned id and timestamp;
   * and a stored project is exactly what creating its own payload builds.
   */
  lemma ProjectRoundTrip(id: Id, p: InsertRenewableProject, now: Timestamp, r: RenewableProject)
    ensures var q := NewProject(id, p, now);
      && q.id == id && q.createdAt == Some(now)
      && ProjectPayload(q) == p.(description := AbsentAsNull(p.description),
                                 investmentAmount := AbsentAsNull(p.investmentAmount),
                                 completionDate := AbsentAsNull(p.completionDate))
    ensures r.createdAt == Some(now) ==> NewProject(r.id, ProjectPayload(r), now) == r
  {
  }

  // ---------------------------------------------------------------------------
  // Carbon emission reports

  datatype CarbonEmission = CarbonEmission(
    id: Id,
    organizationName: string,
    organizationType: string,
    state: string,
    reportingPeriod: string,
    energyEmissions: string,
    transportEmissions: string,
    wasteEmissions: string,
    totalEmissions: string,
    createdAt: Option<Timestamp>)

  datatype InsertCarbonEmission = InsertCarbonEmission(
    organizationName: string,
    organizationType: string,
    state: string,
    reportingPeriod: string,
    energyEmissions: string,
    transportEmissions: string,
    wasteEmissions: string,
    totalEmissions: string)

  /** The record `createCarbonEmission` builds; the total is the caller's, never recomputed. */
  function NewEmission(id: Id, e: InsertCarbonEmission, now: Timestamp): CarbonEmission
  {
    CarbonEmission(id, e.organizationName, e.organizationType, e.state, e.reportingPeriod,
                   e.energyEmissions, e.transportEmissions, e.wasteEmissions, e.totalEmissions,
                   Some(now))
  }

  function EmissionPayload(r: CarbonEmission): InsertCarbonEmission
  {
    InsertCarbonEmission(r.organizationName, r.organizationType, r.state, r.reportingPeriod,
                         r.energyEmissions, r.transportEmissions, r.wasteEmissions, r.totalEmissions)
  }

  /**
   * A created emission report reads back as exactly the submitted payload (the
   * total included, whether or not it is the sum of its parts), plus id and
   * timestamp; and a stored report is what creating its own payload builds.
   */
  lemma EmissionRoundTrip(id: Id, e: InsertCarbonEmission, now: Timestamp, r: CarbonEmission)
    ensures var q := NewEmission(id, e, now);
      q.id == id && q.createdAt == Some(now) && EmissionPayload(q) == e
    ensures r.createdAt == Some(now) ==> NewEmission(r.id, EmissionPayload(r), now) == r
  {
  }

  // ---------------------------------------------------------------------------
  // Financing schemes

  datatype FinancingScheme = FinancingScheme(
    id: Id,
    name: string,
    description: string,
    category: string,
    fundingAmount: string,
    eligibility: string,
    applicationDeadline: Option<string>,
    targetTechnology: Option<string>,
    contactInfo: Option<string>)

  datatype InsertFinancingScheme = InsertFinancingScheme(
    name: string,
    description: string,
    category: string,
    fundingAmount: string,
    eligibility: string,
    applicationDeadline: Optional<string>,
    targetTechnology: Optional<string>,
    contactInfo: Optional<string>)

  /** The record `createFinancingScheme` (and the seeding loop) builds; schemes carry no timestamp. */
  function NewScheme(id: Id, s: InsertFinancingScheme): FinancingScheme
  {
    FinancingScheme(id, s.name, s.description, s.category, s.fundingAmount, s.eligibility,
                    OrNull(s.applicationDeadline), OrNull(s.targetTechnology), OrNull(s.contactInfo))
  }

  function SchemePayload(r: FinancingScheme): InsertFinancingScheme
  {
    InsertFinancingScheme(r.name, r.description, r.category, r.fundingAmount, r.eligibility,
                          Resubmitted(r.applicationDeadline), Resubmitted(r.targetTechnology),
                          Resubmitted(r.contactInfo))
  }

  lemma SchemeRoundTrip(id: Id, s: InsertFinancingScheme, r: FinancingScheme)
    ensures var q := NewScheme(id, s);
      && q.id == id
      && SchemePayload(q) == s.(applicationDeadline := AbsentAsNull(s.applicationDeadline),
                                targetTechnology := AbsentAsNull(s.targetTechnology),
                                contactInfo := AbsentAsNull(s.contactInfo))
    ensures NewScheme(r.id, SchemePayload(r)) == r
  {
  }

  // ---------------------------------------------------------------------------
  // Regional capacity

  datatype RegionalCapacity = RegionalCapacity(
    id: Id,
    state: string,
    solarCapacity: string,
    windCapacity: string,
    hydroCapacity: string,
    totalCapacity: string,
    targetCapacity: string,
    population: Option<int>)

  datatype InsertRegionalCapacity = InsertRegionalCapacity(
    state: string,
    solarCapacity: string,
    windCapacity: string,
    hydroCapacity: string,
    totalCapacity: string,
    targetCapacity: string,
    population: Optional<int>)

  /** The record `createRegionalCapacity` builds; the total is the caller's, never recomputed. */
  function NewCapacity(id: Id, c: InsertRegionalCapacity): RegionalCapacity
  {
    RegionalCapacity(id, c.state, c.solarCapacity, c.windCapacity, c.hydroCapacity,
                     c.totalCapacity, c.targetCapacity, OrNull(c.population))
  }

  function CapacityPayload(r: RegionalCapacity): InsertRegionalCapacity
  {
    InsertRegionalCapacity(r.state, r.solarCapacity, r.windCapacity, r.hydroCapacity,
                           r.totalCapacity, r.targetCapacity, Resubmitted(r.population))
  }

  lemma CapacityRoundTrip(id: Id, c: InsertRegionalCapacity, r: RegionalCapacity)
    ensures var q := NewCapacity(id, c);
      q.id == id && CapacityPayload(q) == c.(population := AbsentAsNull(c.population))
    ensures NewCapacity(r.id, CapacityPayload(r)) == r
  {
  }
}
