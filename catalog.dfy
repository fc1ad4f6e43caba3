/** The service object that owns the capability table and changes rosters in
    place, and the two request handlers that put the credential gate in front
    of each change. */
module Service {
  import opened Outcomes
  import opened Auth
  import opened Rosters

  /** The skill levels every seeded capability offers. */
  const SkillLevels: seq<string> := ["Emerging", "Proficient", "Advanced", "Expert"]

  function CloudArchitecture(): Capability {
    Capability(
        "Design and implement scalable cloud solutions using AWS, Azure, and GCP", "Technology", SkillLevels,
        ["AWS Solutions Architect", "Azure Architect Expert"],
        ["Healthcare", "Financial Services", "Retail"], 40,
        ["alice.smith@slalom.com", "bob.johnson@slalom.com"])
  }

  function DataAnalytics(): Capability {
    Capability(
        "Advanced data analysis, visualization, and machine learning solutions", "Technology", SkillLevels,
        ["Tableau Desktop Specialist", "Power BI Expert", "Google Analytics"],
        ["Retail", "Healthcare", "Manufacturing"], 35,
        ["emma.davis@slalom.com", "sophia.wilson@slalom.com"])
  }

  function DevOpsEngineering(): Capability {
    Capability(
        "CI/CD pipeline design, infrastructure automation, and containerization", "Technology", SkillLevels,
        ["Docker Certified Associate", "Kubernetes Admin", "Jenkins Certified"],
        ["Technology", "Financial Services"], 30,
        ["john.brown@slalom.com", "olivia.taylor@slalom.com"])
  }

  function DigitalStrategy(): Capability {
    Capability(
        "Digital transformation planning and strategic technology roadmaps", "Strategy", SkillLevels,
        ["Digital Transformation Certificate", "Agile Certified Practitioner"],
        ["Healthcare", "Financial Services", "Government"], 25,
        ["liam.anderson@slalom.com", "noah.martinez@slalom.com"])
  }

  function ChangeManagement(): Capability {
    Capability(
        "Organizational change leadership and adoption strategies", "Operations", SkillLevels,
        ["Prosci Certified", "Lean Six Sigma Black Belt"],
        ["Healthcare", "Manufacturing", "Government"], 20,
        ["ava.garcia@slalom.com", "mia.rodriguez@slalom.com"])
  }

  function UxUiDesign(): Capability {
    Capability(
        "User experience design and digital product innovation", "Technology", SkillLevels,
        ["Adobe Certified Expert", "Google UX Design Certificate"],
        ["Retail", "Healthcare", "Technology"], 30,
        ["amelia.lee@slalom.com", "harper.white@slalom.com"])
  }

  function Cybersecurity(): Capability {
    Capability(
        "Information security strategy, risk assessment, and compliance", "Technology", SkillLevels,
        ["CISSP", "CISM", "CompTIA Security+"],
        ["Financial Services", "Healthcare", "Government"], 25,
        ["ella.clark@slalom.com", "scarlett.lewis@slalom.com"])
  }

  function BusinessIntelligence(): Capability {
    Capability(
        "Enterprise reporting, data warehousing, and business analytics", "Technology", SkillLevels,
        ["Microsoft BI Certification", "Qlik Sense Certified"],
        ["Retail", "Manufacturing", "Financial Services"], 35,
        ["james.walker@slalom.com", "benjamin.hall@slalom.com"])
  }

  function AgileCoaching(): Capability {
    Capability(
        "Agile transformation and team coaching for scaled delivery", "Operations", SkillLevels,
        ["Certified Scrum Master", "SAFe Agilist", "ICAgile Certified"],
        ["Technology", "Financial Services", "Healthcare"], 20,
        ["charlotte.young@slalom.com", "henry.king@slalom.com"])
  }

  /** The capability table the service starts with. */
  function SeedCapabilities(): Table {
    map[
      "Cloud Architecture" := CloudArchitecture(),
      "Data Analytics" := DataAnalytics(),
      "DevOps Engineering" := DevOpsEngineering(),
      "Digital Strategy" := DigitalStrategy(),
      "Change Management" := ChangeManagement(),
      "UX/UI Design" := UxUiDesign(),
      "Cybersecurity" := Cybersecurity(),
      "Business Intelligence" := BusinessIntelligence(),
      "Agile Coaching" := AgileCoaching()
    ]
  }

  /** The seeded Cloud Architecture entry, which the documented examples use. */
  lemma SeedCloudArchitecture()
    ensures "Cloud Architecture" in SeedCapabilities()
    ensures SeedCapabilities()["Cloud Architecture"] == CloudArchitecture()
    ensures CloudArchitecture().consultants == ["alice.smith@slalom.com", "bob.johnson@slalom.com"]
  {
  }

  /** The seeded table already satisfies the table invariant. */
  lemma SeedDistinct()
    ensures RostersDistinct(SeedCapabilities())
  {
  }

  class Catalog {
    /** The capability table; only the rosters in it ever change. */
    var capabilities: Table

    ghost predicate Valid()
      reads this
    {
      RostersDistinct(capabilities)
    }

    constructor (initial: Table)
      ensures capabilities == initial
    {
      capabilities := initial;
    }

    /** The catalog as the service starts. */
    constructor Seeded()
      ensures capabilities == SeedCapabilities()
      ensures Valid()
    {
      capabilities := SeedCapabilities();
      SeedDistinct();
    }

    /** `get_capabilities`: the whole table, unfiltered; nothing changes. */
    method GetCapabilities() returns (r: Table)
      ensures r == capabilities
    {
      r := capabilities;
    }

    /** `register_for_capability` for an authenticated user: the reply and the
        new table are those of RegisterStep, and the invariant is kept. */
    method Register(name: string, email: string, user: Account) returns (reply: Result<string>)
      modifies this
      ensures Step(reply, capabilities) == RegisterStep(old(capabilities), name, email, user)
      ensures old(Valid()) ==> Valid()
    {
      if Valid() { RegisterPreservesDistinct(capabilities, name, email, user); }
      if name !in capabilities {
        return Failure(NotFound);
      }
      var capability := capabilities[name];
      if MayActFor(user, email) {
        if email in capability.consultants {
          return Failure(AlreadyRegistered);
        }
        capabilities := capabilities[name := capability.(consultants := capability.consultants + [email])];
        return Success(RegisteredMessage(email, name));
      } else {
        return Failure(Forbidden);
      }
    }

    /** `unregister_from_capability` for an authenticated user: the reply and
        the new table are those of UnregisterStep, and the invariant is kept. */
    method Unregister(name: string, email: string, user: Account) returns (reply: Result<string>)
      modifies this
      ensures Step(reply, capabilities) == UnregisterStep(old(capabilities), name, email, user)
      ensures old(Valid()) ==> Valid()
    {
      if Valid() { UnregisterPreservesDistinct(capabilities, name, email, user); }
      if name !in capabilities {
        return Failure(NotFound);
      }
      var capability := capabilities[name];
      if MayActFor(user, email) {
        if email !in capability.consultants {
          return Failure(NotRegistered);
        }
        capabilities := capabilities[name := capability.(consultants := RemoveFirst(capability.consultants, email))];
        return Success(UnregisteredMessage(email, name));
      } else {
        return Failure(Forbidden);
      }
    }

    /** The register endpoint: the credential gate runs first, so a request
        without credentials or with bad ones is refused before the table is
        looked at, and leaves it unchanged. */
    method RegisterRequest(leads: seq<Account>, usernameHeader: Option<string>, passwordHeader: Option<string>,
                           hash: string -> string, name: string, email: string) returns (reply: Result<string>)
      modifies this
      ensures CurrentUser(leads, usernameHeader, passwordHeader, hash).Failure? ==>
        reply == Failure(CurrentUser(leads, usernameHeader, passwordHeader, hash).error) &&
        capabilities == old(capabilities)
      ensures CurrentUser(leads, usernameHeader, passwordHeader, hash).Success? ==>
        Step(reply, capabilities) ==
        RegisterStep(old(capabilities), name, email, CurrentUser(leads, usernameHeader, passwordHeader, hash).value)
      ensures old(Valid()) ==> Valid()
    {
      var user := CurrentUser(leads, usernameHeader, passwordHeader, hash);
      if user.Failure? {
        return Failure(user.error);
      }
      reply := Register(name, email, user.value);
    }

    /** The unregister endpoint, gated the same way. */
    method UnregisterRequest(leads: seq<Account>, usernameHeader: Option<string>, passwordHeader: Option<string>,
                             hash: string -> string, name: string, email: string) returns (reply: Result<string>)
      modifies this
      ensures CurrentUser(leads, usernameHeader, passwordHeader, hash).Failure? ==>
        reply == Failure(CurrentUser(leads, usernameHeader, passwordHeader, hash).error) &&
        capabilities == old(capabilities)
      ensures CurrentUser(leads, usernameHeader, passwordHeader, hash).Success? ==>
        Step(reply, capabilities) ==
        UnregisterStep(old(capabilities), name, email, CurrentUser(leads, usernameHeader, passwordHeader, hash).value)
      ensures old(Valid()) ==> Valid()
    {
      var user := CurrentUser(leads, usernameHeader, passwordHeader, hash);
      if user.Failure? {
        return Failure(user.error);
      }
      reply := Unregister(name, email, user.value);
    }
  }

  /** A lead account whose stored hash is that of the password "secret". */
  function ScenarioLead(hash: string -> string): (lead: Account)
    ensures CurrentUser([lead], Some("lead@slalom.com"), Some("secret"), hash) == Success(lead)
    ensures lead.role == PracticeLead
  {
    Account("lead@slalom.com", hash("secret"), PracticeLead)
  }

  /** A practice lead registers a new consultant for Cloud Architecture on the
      seeded catalog: the email is appended after the two seeded ones. */
  method SeededRegisterScenario(hash: string -> string) returns (reply: Result<string>, roster: seq<string>)
    ensures reply == Success(RegisteredMessage("carol@slalom.com", "Cloud Architecture"))
    ensures roster == ["alice.smith@slalom.com", "bob.johnson@slalom.com", "carol@slalom.com"]
  {
    var c := new Catalog.Seeded();
    SeedCloudArchitecture();
    reply, roster := RegisterCarol(c, hash);
  }

  /** The register scenario on any catalog whose Cloud Architecture roster is
      the seeded one. */
  method RegisterCarol(c: Catalog, hash: string -> string) returns (reply: Result<string>, roster: seq<string>)
    requires "Cloud Architecture" in c.capabilities
    requires c.capabilities["Cloud Architecture"].consultants == ["alice.smith@slalom.com", "bob.johnson@slalom.com"]
    modifies c
    ensures reply == Success(RegisteredMessage("carol@slalom.com", "Cloud Architecture"))
    ensures roster == ["alice.smith@slalom.com", "bob.johnson@slalom.com", "carol@slalom.com"]
  {
    reply := c.RegisterRequest([ScenarioLead(hash)], Some("lead@slalom.com"), Some("secret"), hash,
                               "Cloud Architecture", "carol@slalom.com");
    roster := c.capabilities["Cloud Architecture"].consultants;
  }

  /** On the seeded catalog: registering a seeded consultant again is refused,
      unregistering it leaves the other one, a second unregister is refused,
      and a request without a password is refused before anything else. */
  method SeededUnregisterScenario(hash: string -> string)
    returns (again: Result<string>, reply: Result<string>, roster: seq<string>,
             twice: Result<string>, noPassword: Result<string>)
    ensures again == Failure(AlreadyRegistered)
    ensures reply == Success(UnregisteredMessage("alice.smith@slalom.com", "Cloud Architecture"))
    ensures roster == ["bob.johnson@slalom.com"]
    ensures twice == Failure(NotRegistered)
    ensures noPassword == Failure(Unauthenticated)
  {
    var c := new Catalog.Seeded();
    SeedCloudArchitecture();
    again, reply, roster, twice, noPassword := UnregisterAlice(c, hash);
  }

  /** The unregister scenario on any catalog whose Cloud Architecture roster
      is the seeded one. */
  method UnregisterAlice(c: Catalog, hash: string -> string)
    returns (again: Result<string>, reply: Result<string>, roster: seq<string>,
             twice: Result<string>, noPassword: Result<string>)
    requires "Cloud Architecture" in c.capabilities
    requires c.capabilities["Cloud Architecture"].consultants == ["alice.smith@slalom.com", "bob.johnson@slalom.com"]
    modifies c
    ensures again == Failure(AlreadyRegistered)
    ensures reply == Success(UnregisteredMessage("alice.smith@slalom.com", "Cloud Architecture"))
    ensures roster == ["bob.johnson@slalom.com"]
    ensures twice == Failure(NotRegistered)
    ensures noPassword == Failure(Unauthenticated)
  {
    var lead := ScenarioLead(hash);
    again := c.RegisterRequest([lead], Some("lead@slalom.com"), Some("secret"), hash,
                               "Cloud Architecture", "alice.smith@slalom.com");
    reply := c.UnregisterRequest([lead], Some("lead@slalom.com"), Some("secret"), hash,
                                 "Cloud Architecture", "alice.smith@slalom.com");
    roster := c.capabilities["Cloud Architecture"].consultants;
    twice := c.UnregisterRequest([lead], Some("lead@slalom.com"), Some("secret"), hash,
                                 "Cloud Architecture", "alice.smith@slalom.com");
    noPassword := c.UnregisterRequest([lead], Some("lead@slalom.com"), None, hash,
                                      "Cloud Architecture", "bob.johnson@slalom.com");
  }
}
