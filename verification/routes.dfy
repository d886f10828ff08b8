/**
 * The REST handlers over the in-memory store: list endpoints with their
 * equality filters, look-ups answering 404 when nothing is found, creation
 * answering 400 / 201 / 500, and deletion answering 204 / 404.
 *
 * Read-only handlers are functions of the store's state; the handlers that
 * create or delete drive the store's methods.
 */
module Routes {
  import opened Records
  import opened Seqs
  import opened Tables
  import opened Storage

  // ---------------------------------------------------------------------------
  // Requests and responses

  /** One complaint of the schema validator: where in the body, and what is wrong. */
  datatype Issue = Issue(path: seq<string>, message: string)

  /**
   * What parsing a request body against an insertion schema gives: the checked
   * payload, a validation error listing the complaints, or some other exception.
   */
  datatype Validation<P> = Passed(payload: P) | Rejected(issues: seq<Issue>) | Threw

  datatype Body<T> =
    | Json(value: T)
    | ErrorJson(error: string)
    | ValidationErrorJson(error: string, details: seq<Issue>)
    | NoBody

  datatype Response<T> = Response(status: nat, body: Body<T>)

  /**
   * A query-string parameter as the request parser delivers it: missing, one
   * string, a repeated parameter (an array), or a nested object.
   */
  datatype QueryParam = Missing | Single(text: string) | Repeated(texts: seq<string>) | Nested

  /** The value an equality filter uses: present only when the parameter is one non-empty string. */
  function FilterValue(q: QueryParam): (r: Option<string>)
    ensures r.Some? <==> q.Single? && q.text != ""
    ensures r.Some? ==> r.value == q.text
  {
    if q.Single? && q.text != "" then Some(q.text) else None
  }

  /** `value` passes the filter that `q` sets up (trivially, when `q` sets up none). */
  predicate Accepts(q: QueryParam, value: string)
  {
    FilterValue(q).Some? ==> value == FilterValue(q).value
  }

  function FieldIs<T>(field: T -> string, v: string): T -> bool
  {
    x => field(x) == v
  }

  /** One `if (v && typeof v === 'string') xs = xs.filter(x => x.field === v)` step. */
  function Narrow<T>(s: seq<T>, q: QueryParam, field: T -> string): seq<T>
  {
    match FilterValue(q)
    case None => s
    case Some(v) => Filter(s, FieldIs(field, v))
  }

  /** One filter step keeps, in order, exactly the elements whose field passes it. */
  lemma NarrowSpec<T(!new)>(s: seq<T>, q: QueryParam, field: T -> string)
    ensures forall x :: x in Narrow(s, q, field) <==> x in s && Accepts(q, field(x))
    ensures IsSubsequence(Narrow(s, q, field), s)
    ensures FilterValue(q).None? ==> Narrow(s, q, field) == s
  {
    match FilterValue(q)
    case None =>
      SelfSubsequence(s);
    case Some(v) =>
      var keep := FieldIs(field, v);
      FilterIsSubsequence(s, keep);
      var found := Filter(s, keep);
      forall x ensures x in found <==> x in s && Accepts(q, field(x)) {
        if x in s && Accepts(q, field(x)) {
          var i :| 0 <= i < |s| && s[i] == x;
          assert keep(s[i]);
        }
        if x in found {
          var i :| 0 <= i < |found| && found[i] == x;
          assert keep(found[i]);
        }
      }
  }

  lemma NarrowCons<T>(x: T, s: seq<T>, q: QueryParam, field: T -> string)
    ensures Narrow([x] + s, q, field) == (if Accepts(q, field(x)) then [x] else []) + Narrow(s, q, field)
  {
    assert ([x] + s)[1..] == s;
  }

  // ---------------------------------------------------------------------------
  // Renewable projects

  datatype ProjectQuery = ProjectQuery(state: QueryParam, technology: QueryParam, status: QueryParam)

  function StateOf(p: RenewableProject): string { p.state }
  function TechnologyOf(p: RenewableProject): string { p.technology }
  function StatusOf(p: RenewableProject): string { p.status }

  /** The filter pipeline of `GET /api/projects`: by state, then technology, then status. */
  function FilterProjects(projects: seq<RenewableProject>, query: ProjectQuery): seq<RenewableProject>
  {
    var byState := Narrow(projects, query.state, StateOf);
    var byTechnology := Narrow(byState, query.technology, TechnologyOf);
    Narrow(byTechnology, query.status, StatusOf)
  }

  /** The project matches every filter the query supplies. */
  predicate Selected(query: ProjectQuery, p: RenewableProject)
  {
    Accepts(query.state, p.state) && Accepts(query.technology, p.technology) && Accepts(query.status, p.status)
  }

  function SelectedBy(query: ProjectQuery): RenewableProject -> bool
  {
    p => Selected(query, p)
  }

  /** The three successive filters are one filter by the conjunction of the supplied equalities. */
  lemma {:induction false} FilterProjectsIsOnePass(projects: seq<RenewableProject>, query: ProjectQuery)
    ensures FilterProjects(projects, query) == Filter(projects, SelectedBy(query))
  {
    if projects != [] {
      var x, rest := projects[0], projects[1..];
      assert projects == [x] + rest;
      FilterProjectsIsOnePass(rest, query);
      NarrowCons(x, rest, query.state, StateOf);
      var byState := Narrow(rest, query.state, StateOf);
      if Accepts(query.state, x.state) {
        NarrowCons(x, byState, query.technology, TechnologyOf);
        var byTechnology := Narrow(byState, query.technology, TechnologyOf);
        if Accepts(query.technology, x.technology) {
          NarrowCons(x, byTechnology, query.status, StatusOf);
        }
      }
    }
  }

  /**
   * The pipeline keeps, in their stored order, exactly the projects that pass
   * every supplied filter.
   */
  lemma FilterProjectsSpec(projects: seq<RenewableProject>, query: ProjectQuery)
    ensures forall p :: p in FilterProjects(projects, query) <==> p in projects && Selected(query, p)
    ensures IsSubsequence(FilterProjects(projects, query), projects)
    ensures (forall p :: p in projects ==> !Selected(query, p)) ==> FilterProjects(projects, query) == []
  {
    FilterProjectsIsOnePass(projects, query);
    FilterIsSubsequence(projects, SelectedBy(query));
    var found := FilterProjects(projects, query);
    forall p ensures p in found <==> p in projects && Selected(query, p) {
      if p in projects && Selected(query, p) {
        var i :| 0 <= i < |projects| && projects[i] == p;
        assert SelectedBy(query)(projects[i]);
      }
      if p in found {
        var i :| 0 <= i < |found| && found[i] == p;
        assert SelectedBy(query)(found[i]);
      }
    }
    if found != [] {
      assert found[0] in found;
    }
  }

  /**
   * `GET /api/projects`: always 200; the stored projects that match every
   * supplied filter, in storage order, and no others.
   */
  function ListProjects(storage: MemStorage, query: ProjectQuery): (r: Response<seq<RenewableProject>>)
    reads storage
    requires storage.Valid()
    ensures r.status == 200 && r.body.Json?
    ensures forall p :: p in r.body.value <==> p in storage.GetProjects() && Selected(query, p)
    ensures IsSubsequence(r.body.value, storage.GetProjects())
    ensures (forall p :: p in storage.GetProjects() ==> !Selected(query, p)) ==> r.body.value == []
  {
    var all := storage.GetProjects();
    FilterProjectsSpec(all, query);
    Response(200, Json(FilterProjects(all, query)))
  }

  /** `GET /api/projects/:id`: 200 with the project stored under `id`, else 404. */
  function GetProject(storage: MemStorage, id: Id): (r: Response<RenewableProject>)
    reads storage
    requires storage.Valid()
    ensures r.status == 200 <==> id in storage.projects.entries
    ensures r.status == 200 ==> r.body.Json? && r.body.value.id == id && r.body.value == storage.projects.entries[id]
    ensures r.status != 200 ==> r == Response(404, ErrorJson("Project not found"))
  {
    match storage.GetProjectById(id)
    case None => Response(404, ErrorJson("Project not found"))
    case Some(project) => Response(200, Json(project))
  }

  /**
   * `POST /api/projects`: a body the validator rejects gets 400 with its
   * complaints and another exception gets 500, both leaving the store as it
   * was; a valid body is stored and answered with 201 and the new record.
   */
  method PostProject(storage: MemStorage, body: Validation<InsertRenewableProject>, now: Timestamp)
    returns (r: Response<RenewableProject>)
    requires storage.Valid()
    modifies storage
    ensures storage.Valid()
    ensures body.Rejected? ==>
      r == Response(400, ValidationErrorJson("Validation failed", body.issues)) && unchanged(storage)
    ensures body.Threw? ==> r == Response(500, ErrorJson("Failed to create project")) && unchanged(storage)
    ensures body.Passed? ==> r.status == 201 && r.body.Json?
    ensures body.Passed? ==> var p := r.body.value;
      && p == NewProject(p.id, body.payload, now)
      && old(storage.GetProjectById(p.id)) == None
      && storage.GetProjectById(p.id) == Some(p)
      && storage.GetProjects() == old(storage.GetProjects()) + [p]
      && storage.carbonEmissions == old(storage.carbonEmissions)
      && storage.financingSchemes == old(storage.financingSchemes)
      && storage.regionalCapacity == old(storage.regionalCapacity)
  {
    match body
    case Rejected(issues) =>
      r := Response(400, ValidationErrorJson("Validation failed", issues));
    case Threw =>
      r := Response(500, ErrorJson("Failed to create project"));
    case Passed(payload) =>
      var project := storage.CreateProject(payload, now);
      r := Response(201, Json(project));
  }

  /** `DELETE /api/projects/:id`: 204 iff a project was stored under `id`, else 404. */
  method DeleteProject(storage: MemStorage, id: Id) returns (r: Response<()>)
    requires storage.Valid()
    modifies storage
    ensures storage.Valid()
    ensures r.status == 204 <==> old(storage.GetProjectById(id)).Some?
    ensures r.status == 204 ==> r.body == NoBody
    ensures r.status != 204 ==> r == Response(404, ErrorJson("Project not found"))
    ensures storage.projects == old(storage.projects).Delete(id)
    ensures storage.GetProjectById(id) == None
    ensures storage.carbonEmissions == old(storage.carbonEmissions)
    ensures storage.financingSchemes == old(storage.financingSchemes)
    ensures storage.regionalCapacity == old(storage.regionalCapacity)
  {
    var success := storage.DeleteProject(id);
    if !success {
      return Response(404, ErrorJson("Project not found"));
    }
    r := Response(204, NoBody);
  }

  // ---------------------------------------------------------------------------
  // Carbon emission reports

  /** `GET /api/carbon-emissions`: always 200 with every stored report; the query is not read. */
  function ListCarbonEmissions(storage: MemStorage): (r: Response<seq<CarbonEmission>>)
    reads storage
    requires storage.Valid()
    ensures r.status == 200 && r.body.Json?
    ensures |r.body.value| == storage.carbonEmissions.Size() == |storage.carbonEmissions.entries|
    ensures forall i :: 0 <= i < |r.body.value| ==>
      storage.carbonEmissions.Get(r.body.value[i].id) == Some(r.body.value[i])
    ensures forall i :: 0 <= i < |r.body.value| ==> r.body.value[i].id == storage.carbonEmissions.order[i]
    ensures r.body.value == storage.GetCarbonEmissions()
  {
    Response(200, Json(storage.GetCarbonEmissions()))
  }

  /** `GET /api/carbon-emissions/:id`: 200 with the report stored under `id`, else 404. */
  function GetCarbonEmission(storage: MemStorage, id: Id): (r: Response<CarbonEmission>)
    reads storage
    requires storage.Valid()
    ensures r.status == 200 <==> id in storage.carbonEmissions.entries
    ensures r.status == 200 ==>
      r.body.Json? && r.body.value.id == id && r.body.value == storage.carbonEmissions.entries[id]
    ensures r.status != 200 ==> r == Response(404, ErrorJson("Emission record not found"))
  {
    match storage.GetCarbonEmissionById(id)
    case None => Response(404, ErrorJson("Emission record not found"))
    case Some(emission) => Response(200, Json(emission))
  }

  /** `POST /api/carbon-emissions`: 400 / 500 leave the store as it was; 201 stores the report. */
  method PostCarbonEmission(storage: MemStorage, body: Validation<InsertCarbonEmission>, now: Timestamp)
    returns (r: Response<CarbonEmission>)
    requires storage.Valid()
    modifies storage
    ensures storage.Valid()
    ensures body.Rejected? ==>
      r == Response(400, ValidationErrorJson("Validation failed", body.issues)) && unchanged(storage)
    ensures body.Threw? ==> r == Response(500, ErrorJson("Failed to create emission record")) && unchanged(storage)
    ensures body.Passed? ==> r.status == 201 && r.body.Json?
    ensures body.Passed? ==> var e := r.body.value;
      && e == NewEmission(e.id, body.payload, now)
      && old(storage.GetCarbonEmissionById(e.id)) == None
      && storage.GetCarbonEmissionById(e.id) == Some(e)
      && storage.GetCarbonEmissions() == old(storage.GetCarbonEmissions()) + [e]
      && storage.projects == old(storage.projects)
      && storage.financingSchemes == old(storage.financingSchemes)
      && storage.regionalCapacity == old(storage.regionalCapacity)
  {
    match body
    case Rejected(issues) =>
      r := Response(400, ValidationErrorJson("Validation failed", issues));
    case Threw =>
      r := Response(500, ErrorJson("Failed to create emission record"));
    case Passed(payload) =>
      var emission := storage.CreateCarbonEmission(payload, now);
      r := Response(201, Json(emission));
  }

  /** `DELETE /api/carbon-emissions/:id`: 204 iff a report was stored under `id`, else 404. */
  method DeleteCarbonEmission(storage: MemStorage, id: Id) returns (r: Response<()>)
    requires storage.Valid()
    modifies storage
    ensures storage.Valid()
    ensures r.status == 204 <==> old(storage.GetCarbonEmissionById(id)).Some?
    ensures r.status == 204 ==> r.body == NoBody
    ensures r.status != 204 ==> r == Response(404, ErrorJson("Emission record not found"))
    ensures storage.carbonEmissions == old(storage.carbonEmissions).Delete(id)
    ensures storage.GetCarbonEmissionById(id) == None
    ensures storage.projects == old(storage.projects)
    ensures storage.financingSchemes == old(storage.financingSchemes)
    ensures storage.regionalCapacity == old(storage.regionalCapacity)
  {
    var success := storage.DeleteCarbonEmission(id);
    if !success {
      return Response(404, ErrorJson("Emission record not found"));
    }
    r := Response(204, NoBody);
  }

  // ---------------------------------------------------------------------------
  // Financing schemes

  function CategoryOf(s: FinancingScheme): string { s.category }

  /**
   * `GET /api/financing-schemes`: always 200; the stored schemes whose
   * category equals the supplied one (all of them when none is supplied), in
   * storage order.
   */
  function ListFinancingSchemes(storage: MemStorage, category: QueryParam): (r: Response<seq<FinancingScheme>>)
    reads storage
    requires storage.Valid()
    ensures r.status == 200 && r.body.Json?
    ensures forall s :: s in r.body.value <==> s in storage.GetFinancingSchemes() && Accepts(category, s.category)
    ensures IsSubsequence(r.body.value, storage.GetFinancingSchemes())
    ensures FilterValue(category).None? ==> r.body.value == storage.GetFinancingSchemes()
  {
    var all := storage.GetFinancingSchemes();
    NarrowSpec(all, category, CategoryOf);
    Response(200, Json(Narrow(all, category, CategoryOf)))
  }

  /** `GET /api/financing-schemes/:id`: 200 with the scheme stored under `id`, else 404. */
  function GetFinancingScheme(storage: MemStorage, id: Id): (r: Response<FinancingScheme>)
    reads storage
    requires storage.Valid()
    ensures r.status == 200 <==> id in storage.financingSchemes.entries
    ensures r.status == 200 ==>
      r.body.Json? && r.body.value.id == id && r.body.value == storage.financingSchemes.entries[id]
    ensures r.status != 200 ==> r == Response(404, ErrorJson("Financing scheme not found"))
  {
    match storage.GetFinancingSchemeById(id)
    case None => Response(404, ErrorJson("Financing scheme not found"))
    case Some(scheme) => Response(200, Json(scheme))
  }

  /** `POST /api/financing-schemes`: 400 / 500 leave the store as it was; 201 stores the scheme. */
  method PostFinancingScheme(storage: MemStorage, body: Validation<InsertFinancingScheme>)
    returns (r: Response<FinancingScheme>)
    requires storage.Valid()
    modifies storage
    ensures storage.Valid()
    ensures body.Rejected? ==>
      r == Response(400, ValidationErrorJson("Validation failed", body.issues)) && unchanged(storage)
    ensures body.Threw? ==> r == Response(500, ErrorJson("Failed to create financing scheme")) && unchanged(storage)
    ensures body.Passed? ==> r.status == 201 && r.body.Json?
    ensures body.Passed? ==> var s := r.body.value;
      && s == NewScheme(s.id, body.payload)
      && old(storage.GetFinancingSchemeById(s.id)) == None
      && storage.GetFinancingSchemeById(s.id) == Some(s)
      && storage.GetFinancingSchemes() == old(storage.GetFinancingSchemes()) + [s]
      && storage.projects == old(storage.projects)
      && storage.carbonEmissions == old(storage.carbonEmissions)
      && storage.regionalCapacity == old(storage.regionalCapacity)
  {
    match body
    case Rejected(issues) =>
      r := Response(400, ValidationErrorJson("Validation failed", issues));
    case Threw =>
      r := Response(500, ErrorJson("Failed to create financing scheme"));
    case Passed(payload) =>
      var scheme := storage.CreateFinancingScheme(payload);
      r := Response(201, Json(scheme));
  }

  /** `DELETE /api/financing-schemes/:id`: 204 iff a scheme was stored under `id`, else 404. */
  method DeleteFinancingScheme(storage: MemStorage, id: Id) returns (r: Response<()>)
    requires storage.Valid()
    modifies storage
    ensures storage.Valid()
    ensures r.status == 204 <==> old(storage.GetFinancingSchemeById(id)).Some?
    ensures r.status == 204 ==> r.body == NoBody
    ensures r.status != 204 ==> r == Response(404, ErrorJson("Financing scheme not found"))
    ensures storage.financingSchemes == old(storage.financingSchemes).Delete(id)
    ensures storage.GetFinancingSchemeById(id) == None
    ensures storage.projects == old(storage.projects)
    ensures storage.carbonEmissions == old(storage.carbonEmissions)
    ensures storage.regionalCapacity == old(storage.regionalCapacity)
  {
    var success := storage.DeleteFinancingScheme(id);
    if !success {
      return Response(404, ErrorJson("Financing scheme not found"));
    }
    r := Response(204, NoBody);
  }

  // ---------------------------------------------------------------------------
  // Regional capacity

  /** `GET /api/regional-capacity`: always 200 with every stored region; the query is not read. */
  function ListRegionalCapacity(storage: MemStorage): (r: Response<seq<RegionalCapacity>>)
    reads storage
    requires storage.Valid()
    ensures r.status == 200 && r.body.Json?
    ensures |r.body.value| == storage.regionalCapacity.Size() == |storage.regionalCapacity.entries|
    ensures forall i :: 0 <= i < |r.body.value| ==>
      storage.regionalCapacity.Get(r.body.value[i].id) == Some(r.body.value[i])
    ensures forall i :: 0 <= i < |r.body.value| ==> r.body.value[i].id == storage.regionalCapacity.order[i]
    ensures r.body.value == storage.GetRegionalCapacity()
  {
    Response(200, Json(storage.GetRegionalCapacity()))
  }

  /**
   * `GET /api/regional-capacity/:state`: looked up by state, not by id; 200
   * with the earliest-inserted record about `state`, else 404.
   */
  function GetRegionalCapacity(storage: MemStorage, state: string): (r: Response<RegionalCapacity>)
    reads storage
    requires storage.Valid()
    ensures r.status == 200 <==>
      exists k :: k in storage.regionalCapacity.entries && storage.regionalCapacity.entries[k].state == state
    ensures r.status == 200 ==>
      && r.body.Json? && r.body.value.state == state
      && storage.regionalCapacity.Get(r.body.value.id) == Some(r.body.value)
    ensures r.status == 200 ==>
      forall i :: 0 <= i < |storage.regionalCapacity.order| &&
                  storage.regionalCapacity.entries[storage.regionalCapacity.order[i]].state == state
        ==> r.body.value.id in storage.regionalCapacity.order[..i + 1]
    ensures r.status != 200 ==> r == Response(404, ErrorJson("Regional capacity data not found"))
  {
    match storage.GetRegionalCapacityByState(state)
    case None => Response(404, ErrorJson("Regional capacity data not found"))
    case Some(capacity) => Response(200, Json(capacity))
  }

  /** `POST /api/regional-capacity`: 400 / 500 leave the store as it was; 201 stores the record. */
  method PostRegionalCapacity(storage: MemStorage, body: Validation<InsertRegionalCapacity>)
    returns (r: Response<RegionalCapacity>)
    requires storage.Valid()
    modifies storage
    ensures storage.Valid()
    ensures body.Rejected? ==>
      r == Response(400, ValidationErrorJson("Validation failed", body.issues)) && unchanged(storage)
    ensures body.Threw? ==> r == Response(500, ErrorJson("Failed to create regional capacity")) && unchanged(storage)
    ensures body.Passed? ==> r.status == 201 && r.body.Json?
    ensures body.Passed? ==> var c := r.body.value;
      && c == NewCapacity(c.id, body.payload)
      && old(storage.regionalCapacity.Get(c.id)) == None
      && storage.regionalCapacity == old(storage.regionalCapacity).Set(c.id, c)
      && storage.GetRegionalCapacity() == old(storage.GetRegionalCapacity()) + [c]
      && storage.projects == old(storage.projects)
      && storage.carbonEmissions == old(storage.carbonEmissions)
      && storage.financingSchemes == old(storage.financingSchemes)
  {
    match body
    case Rejected(issues) =>
      r := Response(400, ValidationErrorJson("Validation failed", issues));
    case Threw =>
      r := Response(500, ErrorJson("Failed to create regional capacity"));
    case Passed(payload) =>
      var capacity := storage.CreateRegionalCapacity(payload);
      r := Response(201, Json(capacity));
  }

  /** `DELETE /api/regional-capacity/:id`: by id, not state; 204 iff a record was stored under `id`, else 404. */
  method DeleteRegionalCapacity(storage: MemStorage, id: Id) returns (r: Response<()>)
    requires storage.Valid()
    modifies storage
    ensures storage.Valid()
    ensures r.status == 204 <==> id in old(storage.regionalCapacity.entries)
    ensures r.status == 204 ==> r.body == NoBody
    ensures r.status != 204 ==> r == Response(404, ErrorJson("Regional capacity not found"))
    ensures storage.regionalCapacity == old(storage.regionalCapacity).Delete(id)
    ensures storage.projects == old(storage.projects)
    ensures storage.carbonEmissions == old(storage.carbonEmissions)
    ensures storage.financingSchemes == old(storage.financingSchemes)
  {
    var success := storage.DeleteRegionalCapacity(id);
    if !success {
      return Response(404, ErrorJson("Regional capacity not found"));
    }
    r := Response(204, NoBody);
  }
}
