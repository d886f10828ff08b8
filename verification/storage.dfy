/**
 * The in-memory storage backend: four tables keyed by generated identifiers,
 * seeded with fixed demonstration data when the store is built, and the list /
 * look-up / create / delete operations on each.
 */
module Storage {
  import opened Records
  import opened Decimal
  import opened Seqs
  import opened Tables

  // ---------------------------------------------------------------------------
  // Identifier generation

  /**
   * The identifier handed out by the `n`-th call of the generator. The source
   * draws random UUIDs; all the store relies on is that no identifier is ever
   * handed out twice, which holds here by construction.
   */
  function Uuid(n: nat): Id
  {
    DecimalString(n)
  }

  /** Every identifier handed out by the first `count` draws. */
  ghost function Issued(count: nat): set<Id>
  {
    set n | 0 <= n < count :: Uuid(n)
  }

  /** The next draw is none of the earlier ones. */
  lemma NextUuidIsFresh(count: nat)
    ensures Uuid(count) !in Issued(count)
    ensures Issued(count + 1) == Issued(count) + {Uuid(count)}
  {
    forall n | 0 <= n < count ensures Uuid(n) != Uuid(count) {
      DecimalStringInjective(n, count);
    }
  }

  // ---------------------------------------------------------------------------
  // Seed data

  datatype SampleState = SampleState(state: string, solar: nat, wind: nat, hydro: nat, target: nat, population: nat)

  const SampleStates: seq<SampleState> := [
    SampleState("Maharashtra", 18500, 10200, 6800, 45000, 112000000),
    SampleState("Gujarat", 15200, 8900, 3200, 35000, 60000000),
    SampleState("Karnataka", 12800, 7200, 5400, 32000, 61000000),
    SampleState("Tamil Nadu", 11200, 9800, 4200, 30000, 72000000),
    SampleState("Rajasthan", 16800, 6200, 1800, 28000, 68000000),
    SampleState("Andhra Pradesh", 9800, 5600, 3200, 24000, 49000000),
    SampleState("Madhya Pradesh", 8200, 3800, 4600, 20000, 73000000),
    SampleState("Uttar Pradesh", 7200, 2800, 3200, 18000, 200000000),
    SampleState("Kerala", 5200, 1800, 6200, 15000, 33000000),
    SampleState("West Bengal", 4800, 1200, 4800, 14000, 91000000)
  ]

  const SampleProjects: seq<InsertRenewableProject> := [
    InsertRenewableProject(
      "Bhadla Solar Park Phase IV", "Rajasthan", "Solar", "2245", "Operational",
      Given("One of the world's largest solar parks, producing clean energy for millions"),
      Given("15000000000"), Given("2023-12-15")),
    InsertRenewableProject(
      "Muppandal Wind Farm Expansion", "Tamil Nadu", "Wind", "1500", "Under Construction",
      Given("Expanding India's pioneering wind energy facility"),
      Given("9800000000"), Given("2025-06-30")),
    InsertRenewableProject(
      "Pavagada Solar Park", "Karnataka", "Solar", "2050", "Operational",
      Given("Ultra mega solar park contributing to Karnataka's renewable targets"),
      Given("13500000000"), Given("2023-08-20")),
    InsertRenewableProject(
      "Kutch Wind Power Project", "Gujarat", "Wind", "1200", "Approved",
      Given("Harnessing Gujarat's coastal wind potential"),
      Given("8000000000"), Given("2025-12-31")),
    InsertRenewableProject(
      "Tehri Hydro Phase III", "Uttarakhand", "Hydro", "1000", "Planning",
      Given("Expanding the Tehri hydroelectric complex for clean baseload power"),
      Given("12000000000"), Absent)
  ]

  const SampleSchemes: seq<InsertFinancingScheme> := [
    InsertFinancingScheme(
      "PM-KUSUM Solar Subsidy",
      "Central government subsidy for solar pumps and grid-connected solar power plants for farmers",
      "Subsidies", "Up to 60% of project cost (max ₹15 lakhs)",
      "Farmers, farmer cooperatives, panchayats, and farmer producer organizations",
      Given("March 31, 2025"), Given("Solar"), Given("mnre.gov.in")),
    InsertFinancingScheme(
      "Green Energy Corridor Loan",
      "Low-interest loans for renewable energy transmission infrastructure development",
      "Loans", "₹5 crores to ₹500 crores at 7.5% interest",
      "State transmission utilities, private transmission companies",
      Given("Ongoing"), Given("All"), Given("powermin.gov.in")),
    InsertFinancingScheme(
      "MNRE Innovation Grant",
      "Research and development grants for breakthrough renewable energy technologies",
      "Grants", "Up to ₹2 crores per project",
      "Research institutions, startups, technology companies",
      Given("June 30, 2025"), Given("All"), Given("mnre-innovation@gov.in")),
    InsertFinancingScheme(
      "Accelerated Depreciation for Wind",
      "Tax benefit allowing 40% depreciation in first year for wind energy projects",
      "Tax Incentives", "40% depreciation benefit",
      "Commercial wind energy project developers",
      Absent, Given("Wind"), Given("incometax.gov.in"))
  ]

  /** The regional record the seeding loop builds from one sample state. */
  function SeedCapacity(id: Id, s: SampleState): RegionalCapacity
  {
    RegionalCapacity(id, s.state, DecimalString(s.solar), DecimalString(s.wind), DecimalString(s.hydro),
                     DecimalString(s.solar + s.wind + s.hydro), DecimalString(s.target), Some(s.population))
  }

  /** A seeded regional total reads back as the sum of its solar, wind and hydro parts. */
  lemma {:induction false} SeedTotalIsSum(id: Id, s: SampleState)
    ensures var r := SeedCapacity(id, s);
      ParseDecimal(r.totalCapacity) == ParseDecimal(r.solarCapacity) + ParseDecimal(r.windCapacity) + ParseDecimal(r.hydroCapacity)
  {
    var r := SeedCapacity(id, s);
    assert r.solarCapacity == DecimalString(s.solar) && r.windCapacity == DecimalString(s.wind);
    assert r.hydroCapacity == DecimalString(s.hydro);
    assert r.totalCapacity == DecimalString(s.solar + s.wind + s.hydro);
    SumReadsBack(s.solar, s.wind, s.hydro);
  }

  /** The regional look-up test: the record is about `state`. */
  function InState(state: string): RegionalCapacity -> bool
  {
    (c: RegionalCapacity) => c.state == state
  }

  // ---------------------------------------------------------------------------
  // The store

  class MemStorage {
    var projects: Table<RenewableProject>
    var carbonEmissions: Table<CarbonEmission>
    var financingSchemes: Table<FinancingScheme>
    var regionalCapacity: Table<RegionalCapacity>
    /** How many identifiers the generator has handed out. */
    var uuidsDrawn: nat

    /**
     * Each table is a well-formed map, stores every record under the record's
     * own id, and holds only identifiers the generator has handed out.
     */
    ghost predicate Valid()
      reads this
    {
      && projects.Valid() && projects.KeyedBy((p: RenewableProject) => p.id)
      && carbonEmissions.Valid() && carbonEmissions.KeyedBy((e: CarbonEmission) => e.id)
      && financingSchemes.Valid() && financingSchemes.KeyedBy((s: FinancingScheme) => s.id)
      && regionalCapacity.Valid() && regionalCapacity.KeyedBy((c: RegionalCapacity) => c.id)
      && projects.entries.Keys <= Issued(uuidsDrawn)
      && carbonEmissions.entries.Keys <= Issued(uuidsDrawn)
      && financingSchemes.entries.Keys <= Issued(uuidsDrawn)
      && regionalCapacity.entries.Keys <= Issued(uuidsDrawn)
    }

    /** Builds the four empty tables and seeds them with the demonstration data. */
    constructor (now: Timestamp)
      ensures Valid()
      ensures regionalCapacity.Size() == 10 && projects.Size() == 5
      ensures financingSchemes.Size() == 4 && carbonEmissions.Size() == 0
      ensures forall i :: 0 <= i < |SampleStates| ==>
        regionalCapacity.Values()[i] == SeedCapacity(regionalCapacity.order[i], SampleStates[i])
      ensures forall i :: 0 <= i < |SampleProjects| ==>
        projects.Values()[i] == NewProject(projects.order[i], SampleProjects[i], now)
      ensures forall i :: 0 <= i < |SampleSchemes| ==>
        financingSchemes.Values()[i] == NewScheme(financingSchemes.order[i], SampleSchemes[i])
    {
      projects := EmptyTable();
      carbonEmissions := EmptyTable();
      financingSchemes := EmptyTable();
      regionalCapacity := EmptyTable();
      uuidsDrawn := 0;
      new;
      SeedData(now);
    }

    /** `randomUUID()`: an identifier no earlier call has returned. */
    method RandomUuid() returns (id: Id)
      requires Valid()
      modifies this`uuidsDrawn
      ensures Valid()
      ensures id !in old(Issued(uuidsDrawn)) && Issued(uuidsDrawn) == old(Issued(uuidsDrawn)) + {id}
    {
      id := Uuid(uuidsDrawn);
      NextUuidIsFresh(uuidsDrawn);
      uuidsDrawn := uuidsDrawn + 1;
    }

    /** Inserts the ten sample regions, then the five sample projects, then the four sample schemes. */
    method SeedData(now: Timestamp)
      requires Valid()
      requires regionalCapacity.Size() == 0 && projects.Size() == 0 && financingSchemes.Size() == 0
      modifies this
      ensures Valid()
      ensures carbonEmissions == old(carbonEmissions)
      ensures regionalCapacity.Size() == |SampleStates| && projects.Size() == |SampleProjects|
      ensures financingSchemes.Size() == |SampleSchemes|
      ensures forall i :: 0 <= i < |SampleStates| ==>
        regionalCapacity.Values()[i] == SeedCapacity(regionalCapacity.order[i], SampleStates[i])
      ensures forall i :: 0 <= i < |SampleProjects| ==>
        projects.Values()[i] == NewProject(projects.order[i], SampleProjects[i], now)
      ensures forall i :: 0 <= i < |SampleSchemes| ==>
        financingSchemes.Values()[i] == NewScheme(financingSchemes.order[i], SampleSchemes[i])
    {
      SeedRegions(SampleStates);
      SeedProjects(SampleProjects, now);
      SeedSchemes(SampleSchemes);
    }

    /** The first `forEach` of the seeding: one regional record per sample state. */
    method SeedRegions(samples: seq<SampleState>)
      requires Valid() && regionalCapacity.Size() == 0
      modifies this
      ensures Valid()
      ensures projects == old(projects) && financingSchemes == old(financingSchemes)
      ensures carbonEmissions == old(carbonEmissions)
      ensures regionalCapacity.Size() == |samples|
      ensures forall i :: 0 <= i < |samples| ==>
        regionalCapacity.Values()[i] == SeedCapacity(regionalCapacity.order[i], samples[i])
    {
      for i := 0 to |samples|
        invariant Valid()
        invariant regionalCapacity.Size() == i
        invariant forall j :: 0 <= j < i ==>
          regionalCapacity.entries[regionalCapacity.order[j]] == SeedCapacity(regionalCapacity.order[j], samples[j])
        invariant projects == old(projects) && financingSchemes == old(financingSchemes)
        invariant carbonEmissions == old(carbonEmissions)
      {
        var id := RandomUuid();
        regionalCapacity := regionalCapacity.Set(id, SeedCapacity(id, samples[i]));
      }
    }

    /** The second `forEach`: one project per sample payload, built as `createProject` builds it. */
    method SeedProjects(samples: seq<InsertRenewableProject>, now: Timestamp)
      requires Valid() && projects.Size() == 0
      modifies this
      ensures Valid()
      ensures regionalCapacity == old(regionalCapacity) && financingSchemes == old(financingSchemes)
      ensures carbonEmissions == old(carbonEmissions)
      ensures projects.Size() == |samples|
      ensures forall i :: 0 <= i < |samples| ==>
        projects.Values()[i] == NewProject(projects.order[i], samples[i], now)
    {
      for i := 0 to |samples|
        invariant Valid()
        invariant projects.Size() == i
        invariant forall j :: 0 <= j < i ==>
          projects.entries[projects.order[j]] == NewProject(projects.order[j], samples[j], now)
        invariant regionalCapacity == old(regionalCapacity) && financingSchemes == old(financingSchemes)
        invariant carbonEmissions == old(carbonEmissions)
      {
        var id := RandomUuid();
        projects := projects.Set(id, NewProject(id, samples[i], now));
      }
    }

    /** The third `forEach`: one scheme per sample payload, built as `createFinancingScheme` builds it. */
    method SeedSchemes(samples: seq<InsertFinancingScheme>)
      requires Valid() && financingSchemes.Size() == 0
      modifies this
      ensures Valid()
      ensures regionalCapacity == old(regionalCapacity) && projects == old(projects)
      ensures carbonEmissions == old(carbonEmissions)
      ensures financingSchemes.Size() == |samples|
      ensures forall i :: 0 <= i < |samples| ==>
        financingSchemes.Values()[i] == NewScheme(financingSchemes.order[i], samples[i])
    {
      for i := 0 to |samples|
        invariant Valid()
        invariant financingSchemes.Size() == i
        invariant forall j :: 0 <= j < i ==>
          financingSchemes.entries[financingSchemes.order[j]] == NewScheme(financingSchemes.order[j], samples[j])
        invariant regionalCapacity == old(regionalCapacity) && projects == old(projects)
        invariant carbonEmissions == old(carbonEmissions)
      {
        var id := RandomUuid();
        financingSchemes := financingSchemes.Set(id, NewScheme(id, samples[i]));
      }
    }

    // -------------------------------------------------------------------------
    // Renewable projects

    /** `getProjects()`: every stored project once, in insertion order. */
    function GetProjects(): (r: seq<RenewableProject>)
      reads this
      requires Valid()
      ensures |r| == projects.Size() == |projects.entries|
      ensures forall i :: 0 <= i < |r| ==> r[i].id == projects.order[i] && projects.entries[r[i].id] == r[i]
    {
      SizeIsCount(projects);
      projects.Values()
    }

    /** `getProjectById(id)`: the project stored under `id`, if any. */
    function GetProjectById(id: Id): (r: Option<RenewableProject>)
      reads this
      requires Valid()
      ensures r.Some? <==> id in projects.entries
      ensures r.Some? ==> r.value.id == id && r.value == projects.entries[id]
    {
      projects.Get(id)
    }

    /**
     * `createProject(p)`: stores the record built from `p` under a never-used
     * identifier and returns it; the other tables are untouched.
     */
    method CreateProject(insertProject: InsertRenewableProject, now: Timestamp) returns (project: RenewableProject)
      requires Valid()
      modifies this
      ensures Valid()
      ensures project == NewProject(project.id, insertProject, now)
      ensures project.id !in old(Issued(uuidsDrawn)) && old(GetProjectById(project.id)) == None
      ensures projects == old(projects).Set(project.id, project)
      ensures GetProjectById(project.id) == Some(project)
      ensures forall id :: id != project.id ==> GetProjectById(id) == old(GetProjectById(id))
      ensures GetProjects() == old(GetProjects()) + [project]
      ensures carbonEmissions == old(carbonEmissions) && financingSchemes == old(financingSchemes)
      ensures regionalCapacity == old(regionalCapacity)
    {
      var id := RandomUuid();
      project := NewProject(id, insertProject, now);
      SetFresh(projects, id, project);
      projects := projects.Set(id, project);
    }

    /**
     * `deleteProject(id)`: true iff a project was stored under `id`; afterwards
     * none is, and the others keep their values and their order.
     */
    method DeleteProject(id: Id) returns (deleted: bool)
      requires Valid()
      modifies this
      ensures Valid()
      ensures deleted <==> old(GetProjectById(id)).Some?
      ensures projects == old(projects).Delete(id)
      ensures GetProjectById(id) == None
      ensures forall k :: k != id ==> GetProjectById(k) == old(GetProjectById(k))
      ensures !deleted ==> GetProjects() == old(GetProjects())
      ensures deleted ==> var i := old(FirstMatch(projects.order, Is(id)));
        GetProjects() == old(GetProjects())[..i] + old(GetProjects())[i + 1..]
      ensures carbonEmissions == old(carbonEmissions) && financingSchemes == old(financingSchemes)
      ensures regionalCapacity == old(regionalCapacity) && uuidsDrawn == old(uuidsDrawn)
    {
      deleted := id in projects.entries;
      DeleteGet(projects, id);
      if deleted {
        DeletePresent(projects, id);
      } else {
        DeleteAbsent(projects, id);
      }
      projects := projects.Delete(id);
    }

    // -------------------------------------------------------------------------
    // Carbon emission reports

    /** `getCarbonEmissions()`: every stored report once, in insertion order. */
    function GetCarbonEmissions(): (r: seq<CarbonEmission>)
      reads this
      requires Valid()
      ensures |r| == carbonEmissions.Size() == |carbonEmissions.entries|
      ensures forall i :: 0 <= i < |r| ==>
        r[i].id == carbonEmissions.order[i] && carbonEmissions.entries[r[i].id] == r[i]
    {
      SizeIsCount(carbonEmissions);
      carbonEmissions.Values()
    }

    /** `getCarbonEmissionById(id)`: the report stored under `id`, if any. */
    function GetCarbonEmissionById(id: Id): (r: Option<CarbonEmission>)
      reads this
      requires Valid()
      ensures r.Some? <==> id in carbonEmissions.entries
      ensures r.Some? ==> r.value.id == id && r.value == carbonEmissions.entries[id]
    {
      carbonEmissions.Get(id)
    }

    /**
     * `createCarbonEmission(e)`: stores the report built from `e` (its total as
     * given) under a never-used identifier; the other tables are untouched.
     */
    method CreateCarbonEmission(insertEmission: InsertCarbonEmission, now: Timestamp) returns (emission: CarbonEmission)
      requires Valid()
      modifies this
      ensures Valid()
      ensures emission == NewEmission(emission.id, insertEmission, now)
      ensures emission.id !in old(Issued(uuidsDrawn)) && old(GetCarbonEmissionById(emission.id)) == None
      ensures carbonEmissions == old(carbonEmissions).Set(emission.id, emission)
      ensures GetCarbonEmissionById(emission.id) == Some(emission)
      ensures forall id :: id != emission.id ==> GetCarbonEmissionById(id) == old(GetCarbonEmissionById(id))
      ensures GetCarbonEmissions() == old(GetCarbonEmissions()) + [emission]
      ensures projects == old(projects) && financingSchemes == old(financingSchemes)
      ensures regionalCapacity == old(regionalCapacity)
    {
      var id := RandomUuid();
      emission := NewEmission(id, insertEmission, now);
      SetFresh(carbonEmissions, id, emission);
      carbonEmissions := carbonEmissions.Set(id, emission);
    }

    /** `deleteCarbonEmission(id)`: true iff a report was stored under `id`. */
    method DeleteCarbonEmission(id: Id) returns (deleted: bool)
      requires Valid()
      modifies this
      ensures Valid()
      ensures deleted <==> old(GetCarbonEmissionById(id)).Some?
      ensures carbonEmissions == old(carbonEmissions).Delete(id)
      ensures GetCarbonEmissionById(id) == None
      ensures forall k :: k != id ==> GetCarbonEmissionById(k) == old(GetCarbonEmissionById(k))
      ensures !deleted ==> GetCarbonEmissions() == old(GetCarbonEmissions())
      ensures deleted ==> var i := old(FirstMatch(carbonEmissions.order, Is(id)));
        GetCarbonEmissions() == old(GetCarbonEmissions())[..i] + old(GetCarbonEmissions())[i + 1..]
      ensures projects == old(projects) && financingSchemes == old(financingSchemes)
      ensures regionalCapacity == old(regionalCapacity) && uuidsDrawn == old(uuidsDrawn)
    {
      deleted := id in carbonEmissions.entries;
      DeleteGet(carbonEmissions, id);
      if deleted {
        DeletePresent(carbonEmissions, id);
      } else {
        DeleteAbsent(carbonEmissions, id);
      }
      carbonEmissions := carbonEmissions.Delete(id);
    }

    // -------------------------------------------------------------------------
    // Financing schemes

    /** `getFinancingSchemes()`: every stored scheme once, in insertion order. */
    function GetFinancingSchemes(): (r: seq<FinancingScheme>)
      reads this
      requires Valid()
      ensures |r| == financingSchemes.Size() == |financingSchemes.entries|
      ensures forall i :: 0 <= i < |r| ==>
        r[i].id == financingSchemes.order[i] && financingSchemes.entries[r[i].id] == r[i]
    {
      SizeIsCount(financingSchemes);
      financingSchemes.Values()
    }

    /** `getFinancingSchemeById(id)`: the scheme stored under `id`, if any. */
    function GetFinancingSchemeById(id: Id): (r: Option<FinancingScheme>)
      reads this
      requires Valid()
      ensures r.Some? <==> id in financingSchemes.entries
      ensures r.Some? ==> r.value.id == id && r.value == financingSchemes.entries[id]
    {
      financingSchemes.Get(id)
    }

    /** `createFinancingScheme(s)`: stores the scheme built from `s` under a never-used identifier. */
    method CreateFinancingScheme(insertScheme: InsertFinancingScheme) returns (scheme: FinancingScheme)
      requires Valid()
      modifies this
      ensures Valid()
      ensures scheme == NewScheme(scheme.id, insertScheme)
      ensures scheme.id !in old(Issued(uuidsDrawn)) && old(GetFinancingSchemeById(scheme.id)) == None
      ensures financingSchemes == old(financingSchemes).Set(scheme.id, scheme)
      ensures GetFinancingSchemeById(scheme.id) == Some(scheme)
      ensures forall id :: id != scheme.id ==> GetFinancingSchemeById(id) == old(GetFinancingSchemeById(id))
      ensures GetFinancingSchemes() == old(GetFinancingSchemes()) + [scheme]
      ensures projects == old(projects) && carbonEmissions == old(carbonEmissions)
      ensures regionalCapacity == old(regionalCapacity)
    {
      var id := RandomUuid();
      scheme := NewScheme(id, insertScheme);
      SetFresh(financingSchemes, id, scheme);
      financingSchemes := financingSchemes.Set(id, scheme);
    }

    /** `deleteFinancingScheme(id)`: true iff a scheme was stored under `id`. */
    method DeleteFinancingScheme(id: Id) returns (deleted: bool)
      requires Valid()
      modifies this
      ensures Valid()
      ensures deleted <==> old(GetFinancingSchemeById(id)).Some?
      ensures financingSchemes == old(financingSchemes).Delete(id)
      ensures GetFinancingSchemeById(id) == None
      ensures forall k :: k != id ==> GetFinancingSchemeById(k) == old(GetFinancingSchemeById(k))
      ensures !deleted ==> GetFinancingSchemes() == old(GetFinancingSchemes())
      ensures deleted ==> var i := old(FirstMatch(financingSchemes.order, Is(id)));
        GetFinancingSchemes() == old(GetFinancingSchemes())[..i] + old(GetFinancingSchemes())[i + 1..]
      ensures projects == old(projects) && carbonEmissions == old(carbonEmissions)
      ensures regionalCapacity == old(regionalCapacity) && uuidsDrawn == old(uuidsDrawn)
    {
      deleted := id in financingSchemes.entries;
      DeleteGet(financingSchemes, id);
      if deleted {
        DeletePresent(financingSchemes, id);
      } else {
        DeleteAbsent(financingSchemes, id);
      }
      financingSchemes := financingSchemes.Delete(id);
    }

    // -------------------------------------------------------------------------
    // Regional capacity

    /** `getRegionalCapacity()`: every stored region once, in insertion order. */
    function GetRegionalCapacity(): (r: seq<RegionalCapacity>)
      reads this
      requires Valid()
      ensures |r| == regionalCapacity.Size() == |regionalCapacity.entries|
      ensures forall i :: 0 <= i < |r| ==>
        r[i].id == regionalCapacity.order[i] && regionalCapacity.entries[r[i].id] == r[i]
    {
      SizeIsCount(regionalCapacity);
      regionalCapacity.Values()
    }

    /**
     * `getRegionalCapacityByState(state)`: the earliest-inserted record about
     * `state`, or none when no record is about it.
     */
    function GetRegionalCapacityByState(state: string): (r: Option<RegionalCapacity>)
      reads this
      requires Valid()
      ensures r.None? <==> forall k :: k in regionalCapacity.entries ==> regionalCapacity.entries[k].state != state
      ensures r.Some? ==> r.value.state == state && regionalCapacity.Get(r.value.id) == Some(r.value)
      ensures r.Some? ==>
        forall i :: 0 <= i < |regionalCapacity.order| && regionalCapacity.entries[regionalCapacity.order[i]].state == state
          ==> r.value.id in regionalCapacity.order[..i + 1]
    {
      var all := regionalCapacity.Values();
      var r := Find(all, InState(state));
      assert r.None? ==> forall k :: k in regionalCapacity.entries ==> regionalCapacity.entries[k].state != state by {
        if r.None? {
          forall k | k in regionalCapacity.entries ensures regionalCapacity.entries[k].state != state {
            var i :| 0 <= i < |regionalCapacity.order| && regionalCapacity.order[i] == k;
            assert !InState(state)(all[i]);
          }
        }
      }
      assert r.Some? ==> exists i :: 0 <= i < |all| && InState(state)(all[i]);
      r
    }

    /**
     * `createRegionalCapacity(c)`: stores the record built from `c` under a
     * never-used identifier; a state that already has a record is not refused.
     */
    method CreateRegionalCapacity(insertCapacity: InsertRegionalCapacity) returns (capacity: RegionalCapacity)
      requires Valid()
      modifies this
      ensures Valid()
      ensures capacity == NewCapacity(capacity.id, insertCapacity)
      ensures capacity.id !in old(Issued(uuidsDrawn)) && old(regionalCapacity.Get(capacity.id)) == None
      ensures regionalCapacity == old(regionalCapacity).Set(capacity.id, capacity)
      ensures regionalCapacity.Get(capacity.id) == Some(capacity)
      ensures GetRegionalCapacity() == old(GetRegionalCapacity()) + [capacity]
      ensures projects == old(projects) && carbonEmissions == old(carbonEmissions)
      ensures financingSchemes == old(financingSchemes)
    {
      var id := RandomUuid();
      capacity := NewCapacity(id, insertCapacity);
      SetFresh(regionalCapacity, id, capacity);
      regionalCapacity := regionalCapacity.Set(id, capacity);
    }

    /** `deleteRegionalCapacity(id)`: by identifier, not by state; true iff a record was stored under `id`. */
    method DeleteRegionalCapacity(id: Id) returns (deleted: bool)
      requires Valid()
      modifies this
      ensures Valid()
      ensures deleted <==> id in old(regionalCapacity.entries)
      ensures regionalCapacity == old(regionalCapacity).Delete(id)
      ensures regionalCapacity.Get(id) == None
      ensures !deleted ==> GetRegionalCapacity() == old(GetRegionalCapacity())
      ensures deleted ==> var i := old(FirstMatch(regionalCapacity.order, Is(id)));
        GetRegionalCapacity() == old(GetRegionalCapacity())[..i] + old(GetRegionalCapacity())[i + 1..]
      ensures projects == old(projects) && carbonEmissions == old(carbonEmissions)
      ensures financingSchemes == old(financingSchemes) && uuidsDrawn == old(uuidsDrawn)
    {
      deleted := id in regionalCapacity.entries;
      DeleteGet(regionalCapacity, id);
      if deleted {
        DeletePresent(regionalCapacity, id);
      } else {
        DeleteAbsent(regionalCapacity, id);
      }
      regionalCapacity := regionalCapacity.Delete(id);
    }
  }
}
