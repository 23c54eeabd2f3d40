/** The "project" collection and the endpoints that read and change it: lazy seeding, the
    sorted listing, and the gated create, update and delete. The collection is held as a
    sequence of documents in insertion order; ids the store assigns are passed in. */
module ProjectStore {
  import opened Options
  import opened Schemas
  import opened ObjectIds
  import opened Documents
  import opened ProjectOrder
  import opened AdminGate

  /** The four projects inserted when the collection is found empty, in list order. Fields the
      seed leaves out (`live` for every one of them) take the schema's defaults. */
  const SEED_PROJECTS: seq<Project> := [
    Project("Sarepay", "Multi-tenant payment processing system for merchants.",
            stack := ["PHP", "Laravel", "MySQL", "Redis", "Docker", "AWS"],
            github := Some("https://github.com/devwaleh/sarepay"),
            featured := true, order := 1),
    Project("Piper Backoffice", "Admin dashboard for transaction monitoring and settlements.",
            stack := ["Laravel", "MySQL", "Redis", "Tailwind"],
            github := Some("https://github.com/devwaleh/piper-backoffice"),
            featured := true, order := 2),
    Project("Gridman", "Distributed microservice for real-time wallet transactions.",
            stack := ["Node.js", "Express", "MongoDB", "Docker", "Microservices"],
            github := Some("https://github.com/devwaleh/gridman"),
            featured := false, order := 3),
    Project("Monitraka", "AI-powered transaction anomaly detector.",
            stack := ["Python", "FastAPI", "Scikit-learn", "Redis"],
            github := Some("https://github.com/devwaleh/monitraka"),
            featured := false, order := 4)
  ]

  /** The seed projects stored under the ids the store assigns them. */
  function SeedRecords(ids: seq<string>): seq<Record>
    requires |ids| == |SEED_PROJECTS|
  {
    seq(|SEED_PROJECTS|, i requires 0 <= i < |SEED_PROJECTS| => Record(ids[i], SEED_PROJECTS[i]))
  }

  /** The collection after `ensure_seed_projects`: the seed when it was empty, else unchanged. */
  function Seeded(rs: seq<Record>, ids: seq<string>): seq<Record>
    requires |ids| == |SEED_PROJECTS|
  {
    if |rs| == 0 then SeedRecords(ids) else rs
  }

  /** Ids the store may hand out next: canonical, pairwise distinct and not yet in use. */
  predicate FreshIds(rs: seq<Record>, ids: seq<string>) {
    && (forall i, j :: 0 <= i < j < |ids| ==> ids[i] != ids[j])
    && (forall i :: 0 <= i < |ids| ==> IsCanonicalId(ids[i]) && !HasId(rs, ids[i]))
  }

  /** Seeding an empty collection leaves exactly the four seed projects, in list order, each
      with `live` unset; their `order` values are 1 to 4. */
  lemma SeedContents(ids: seq<string>)
    requires |ids| == |SEED_PROJECTS|
    ensures |Seeded([], ids)| == 4
    ensures forall i :: 0 <= i < 4 ==>
              Seeded([], ids)[i] == Record(ids[i], SEED_PROJECTS[i])
              && Seeded([], ids)[i].project.live == None
              && Seeded([], ids)[i].project.order == i + 1
    ensures [Seeded([], ids)[0].project.name, Seeded([], ids)[1].project.name,
             Seeded([], ids)[2].project.name, Seeded([], ids)[3].project.name]
            == ["Sarepay", "Piper Backoffice", "Gridman", "Monitraka"]
  {
  }

  /** Seeding a second time changes nothing, whatever ids the store would have offered. */
  lemma SeedingIsIdempotent(rs: seq<Record>, ids: seq<string>, later: seq<string>)
    requires |ids| == |SEED_PROJECTS| && |later| == |SEED_PROJECTS|
    ensures Seeded(Seeded(rs, ids), later) == Seeded(rs, ids)
    ensures |Seeded(rs, ids)| > 0
  {
  }

  /** The first listing after seeding returns the seed projects in their list order. */
  lemma FirstListingInSeedOrder(ids: seq<string>)
    requires |ids| == |SEED_PROJECTS|
    ensures SortByOrder(Seeded([], ids)) == Seeded([], ids)
  {
    var rs := Seeded([], ids);
    SeedContents(ids);
    assert SortedByOrder(rs);
    SortedIsUnchanged(rs);
  }

  /** Seeding with fresh ids keeps the collection well-formed. */
  lemma SeedingKeepsWellFormed(rs: seq<Record>, ids: seq<string>)
    requires |ids| == |SEED_PROJECTS|
    requires WellFormed(rs) && FreshIds(rs, ids)
    ensures WellFormed(Seeded(rs, ids))
  {
  }

  /** What an endpoint answers: the JSON body of a success, or an HTTP error. */
  datatype Reply = Created(id: string) | Updated | Deleted | Failure(status: nat, detail: string)

  const UNAUTHORIZED: Reply := Failure(401, "Unauthorized")
  const INVALID_ID: Reply := Failure(400, "Invalid id")
  const NOT_FOUND: Reply := Failure(404, "Not found")
  /** The framework's answer to an exception the endpoint does not catch. */
  const SERVER_ERROR: Reply := Failure(500, "Internal Server Error")

  /** Every seed project fits the store's encoding, so seeding never fails. */
  lemma SeedEncodable()
    ensures forall i :: 0 <= i < |SEED_PROJECTS| ==> Encodable(SEED_PROJECTS[i])
  {
  }

  class Store {
    /** The collection's documents in insertion order. */
    var records: seq<Record>

    ghost predicate Valid()
      reads this
    {
      WellFormed(records)
    }

    constructor (initial: seq<Record>)
      requires WellFormed(initial)
      ensures Valid() && records == initial
    {
      records := initial;
    }

    /** `create_document("project", p)`: appends a document under the id the store assigns;
        a project whose `order` the store cannot encode is not written. */
    method InsertDocument(id: string, p: Project) returns (inserted: bool)
      requires Valid() && IsCanonicalId(id) && !HasId(records, id)
      modifies this
      ensures Valid()
      ensures inserted == Encodable(p)
      ensures records == if inserted then old(records) + [Record(id, p)] else old(records)
    {
      if !Encodable(p) {
        return false;
      }
      records := records + [Record(id, p)];
      inserted := true;
    }

    /** `ensure_seed_projects`: when the collection is empty, inserts the seed projects one by
        one in list order; otherwise does nothing. */
    method EnsureSeedProjects(seedIds: seq<string>)
      requires Valid() && |seedIds| == |SEED_PROJECTS| && FreshIds(records, seedIds)
      modifies this
      ensures Valid()
      ensures records == Seeded(old(records), seedIds)
    {
      if |records| == 0 {
        var i := 0;
        while i < |SEED_PROJECTS|
          invariant 0 <= i <= |SEED_PROJECTS|
          invariant records == SeedRecords(seedIds)[..i]
          invariant Valid()
        {
          assert !HasId(records, seedIds[i]);
          SeedEncodable();
          var _ := InsertDocument(seedIds[i], SEED_PROJECTS[i]);
          i := i + 1;
        }
      }
    }

    /** `list_projects`: seeds the collection if it is empty, then returns every document
        sorted ascending by `order`, ties in insertion order. */
    method ListProjects(seedIds: seq<string>) returns (listing: seq<Record>)
      requires Valid() && |seedIds| == |SEED_PROJECTS| && FreshIds(records, seedIds)
      modifies this
      ensures Valid()
      ensures records == Seeded(old(records), seedIds)
      ensures listing == SortByOrder(records)
      ensures multiset(listing) == multiset(records)
      ensures SortedByOrder(listing)
      ensures forall v :: WithOrder(listing, v) == WithOrder(records, v)
    {
      EnsureSeedProjects(seedIds);
      listing := SortByOrder(records);
      SortPermutes(records);
      SortIsSorted(records);
      forall v ensures WithOrder(listing, v) == WithOrder(records, v) {
        SortIsStable(records, v);
      }
    }

    /** `create_project`: behind the admin gate, inserts the project and answers its new id;
        a project the store cannot encode makes the insert raise, answered as a server error. */
    method CreateProject(authorization: Option<string>, adminToken: string, p: Project,
                         newId: string) returns (reply: Reply)
      requires Valid() && IsCanonicalId(newId) && !HasId(records, newId)
      modifies this
      ensures Valid()
      ensures !Authorize(authorization, adminToken) ==>
                reply == UNAUTHORIZED && records == old(records)
      ensures Authorize(authorization, adminToken) && !Encodable(p) ==>
                reply == SERVER_ERROR && records == old(records)
      ensures Authorize(authorization, adminToken) && Encodable(p) ==>
                reply == Created(newId) && records == old(records) + [Record(newId, p)]
    {
      if !Authorize(authorization, adminToken) {
        return UNAUTHORIZED;
      }
      var inserted := InsertDocument(newId, p);
      if !inserted {
        return SERVER_ERROR;
      }
      reply := Created(newId);
    }

    /** `update_project`: behind the admin gate; 400 for an id that is not an ObjectId; a
        server error when the store cannot encode the payload (the write raises before any
        match is counted); 404 when no document has the id; otherwise every schema field of
        that document is replaced. */
    method UpdateProject(authorization: Option<string>, adminToken: string, projectId: string,
                         p: Project) returns (reply: Reply)
      requires Valid()
      modifies this
      ensures Valid()
      ensures !Authorize(authorization, adminToken) ==>
                reply == UNAUTHORIZED && records == old(records)
      ensures Authorize(authorization, adminToken) && !ValidId(projectId) ==>
                reply == INVALID_ID && records == old(records)
      ensures Authorize(authorization, adminToken) && ValidId(projectId) && !Encodable(p) ==>
                reply == SERVER_ERROR && records == old(records)
      ensures Authorize(authorization, adminToken) && ValidId(projectId) && Encodable(p)
              && !HasId(old(records), Canonical(projectId)) ==>
                reply == NOT_FOUND && records == old(records)
      ensures Authorize(authorization, adminToken) && ValidId(projectId) && Encodable(p)
              && HasId(old(records), Canonical(projectId)) ==>
                reply == Updated
                && |records| == |old(records)|
                && (forall i :: 0 <= i < |records| && old(records)[i].id == Canonical(projectId) ==>
                      records[i] == Record(Canonical(projectId), p))
                && (forall i :: 0 <= i < |records| && old(records)[i].id != Canonical(projectId) ==>
                      records[i] == old(records)[i])
    {
      if !Authorize(authorization, adminToken) {
        return UNAUTHORIZED;
      }
      if !ValidId(projectId) {
        return INVALID_ID;
      }
      if !Encodable(p) {
        return SERVER_ERROR;
      }
      var key := Canonical(projectId);
      var res := UpdateOne(records, key, p);
      if HasId(records, key) { UpdateChangesOnlyTarget(records, key, p); }
      records := res.records;
      if res.count == 0 {
        return NOT_FOUND;
      }
      reply := Updated;
    }

    /** `delete_project`: behind the admin gate; 400 for an id that is not an ObjectId, 404 when
        no document has it, otherwise exactly that document is removed. */
    method DeleteProject(authorization: Option<string>, adminToken: string, projectId: string)
      returns (reply: Reply)
      requires Valid()
      modifies this
      ensures Valid()
      ensures !Authorize(authorization, adminToken) ==>
                reply == UNAUTHORIZED && records == old(records)
      ensures Authorize(authorization, adminToken) && !ValidId(projectId) ==>
                reply == INVALID_ID && records == old(records)
      ensures Authorize(authorization, adminToken) && ValidId(projectId)
              && !HasId(old(records), Canonical(projectId)) ==>
                reply == NOT_FOUND && records == old(records)
      ensures Authorize(authorization, adminToken) && ValidId(projectId)
              && HasId(old(records), Canonical(projectId)) ==>
                reply == Deleted
                && records == old(records)[..FirstIndex(old(records), Canonical(projectId))]
                              + old(records)[FirstIndex(old(records), Canonical(projectId)) + 1..]
                && !HasId(records, Canonical(projectId))
                && |records| == |old(records)| - 1
    {
      if !Authorize(authorization, adminToken) {
        return UNAUTHORIZED;
      }
      if !ValidId(projectId) {
        return INVALID_ID;
      }
      var key := Canonical(projectId);
      var res := DeleteOne(records, key);
      if HasId(records, key) { DeleteRemovesOnlyTarget(records, key); }
      records := res.records;
      if res.count == 0 {
        return NOT_FOUND;
      }
      reply := Deleted;
    }
  }
}
