/**
  The three-stage gate of `restart_application` (actions.py): customer, then
  environment, then application. Each rejection carries the alternatives its
  `ValueError` message lists.
 */
module Validation {
  import opened Wrappers
  import opened Text
  import opened Customers

  datatype Application = Cbp | OpenAccess | ImageServer | SpacePlanning

  /** The application names the gate accepts, in the order its message lists them. */
  const ApplicationNames: seq<string> := ["cbp", "Open Access", "Image Server", "Space Planning"]

  /** The application names the system prompt advertises to the model (restart_prompt.py). */
  const AdvertisedApplications: seq<string> := ["cbp", "open_access", "Image Server", "Space Planning"]

  function DisplayName(a: Application): string {
    match a
    case Cbp => "cbp"
    case OpenAccess => "Open Access"
    case ImageServer => "Image Server"
    case SpacePlanning => "Space Planning"
  }

  /** Reads an application name; only the four exact spellings are recognised. */
  function ParseApplication(s: string): (r: Option<Application>)
    ensures r.Some? <==> s in ApplicationNames
    ensures r.Some? ==> DisplayName(r.value) == s
  {
    if s == "cbp" then Some(Cbp)
    else if s == "Open Access" then Some(OpenAccess)
    else if s == "Image Server" then Some(ImageServer)
    else if s == "Space Planning" then Some(SpacePlanning)
    else None
  }

  /** Parsing an application's own name gives it back. */
  lemma ParseDisplayName(a: Application)
    ensures ParseApplication(DisplayName(a)) == Some(a)
  {
  }

  /** A triple that passed the gate. */
  datatype Target = Target(customerName: string, customer: Customer, environment: string, application: Application)

  /** Why the gate refused, with the alternatives the message enumerates. */
  datatype Rejection =
    | UnknownCustomer(customerName: string, customers: seq<string>)
    | InvalidEnvironment(environment: string, customerName: string, environments: seq<string>)
    | UnknownApplication(application: string)

  const CustomerListHead := "Available customers: "
  const EnvironmentListHead := "Available environments: "

  /** The text of the `ValueError` raised for a rejection. */
  function Message(r: Rejection): string {
    match r
    case UnknownCustomer(c, cs) =>
      "Customer '" + c + "' not recognized. " + CustomerListHead + Join(cs, ", ")
    case InvalidEnvironment(e, c, es) =>
      "Environment '" + e + "' not valid for customer '" + c + "'. " + EnvironmentListHead + Join(es, ", ")
    case UnknownApplication(a) =>
      "Application '" + a + "' not recognized. Available applications: " + Join(ApplicationNames, ", ")
  }

  /** The gate: the customer is checked first, then the environment, then the application. */
  function Validate(t: Table, customerName: string, environment: string, application: string): (r: Result<Target, Rejection>)
    ensures r.Ok? <==>
      && customerName in t.entries
      && environment in t.entries[customerName].environments
      && application in ApplicationNames
    ensures r.Ok? ==>
      && r.value == Target(customerName, t.entries[customerName], environment, r.value.application)
      && DisplayName(r.value.application) == application
    ensures r.Err? && r.error.UnknownCustomer? <==> customerName !in t.entries
    ensures r.Err? && r.error.InvalidEnvironment? <==>
      customerName in t.entries && environment !in t.entries[customerName].environments
    ensures r.Err? && r.error.UnknownCustomer? ==> r.error == UnknownCustomer(customerName, t.keys)
    ensures r.Err? && r.error.InvalidEnvironment? ==>
      r.error == InvalidEnvironment(environment, customerName, t.entries[customerName].environments)
    ensures r.Err? && r.error.UnknownApplication? ==> r.error == UnknownApplication(application)
  {
    if customerName !in t.entries then Err(UnknownCustomer(customerName, t.keys))
    else
      var customer := t.entries[customerName];
      if environment !in customer.environments then
        Err(InvalidEnvironment(environment, customerName, customer.environments))
      else
        match ParseApplication(application)
        case None => Err(UnknownApplication(application))
        case Some(a) => Ok(Target(customerName, customer, environment, a))
  }

  /**
    An environment rejection for a parsed registry lists that customer's
    environments so that splitting the list at ',' and stripping the pieces
    gives back exactly the allowed environments, in order.
   */
  lemma EnvironmentMessageListsAllowed(t: Table, c: string, e: string, a: string)
    requires AllClean(t)
    requires c in t.entries && e !in t.entries[c].environments
    ensures Validate(t, c, e, a).Err?
    ensures var m := Message(Validate(t, c, e, a).error);
      var head := "Environment '" + e + "' not valid for customer '" + c + "'. " + EnvironmentListHead;
      && m[..|head|] == head
      && StripAll(Split(m[|head|..], ',')) == t.entries[c].environments
  {
    var es := t.entries[c].environments;
    assert Clean(c, t.entries[c]);
    JoinCommaSpaceRoundTrip(es);
    var head := "Environment '" + e + "' not valid for customer '" + c + "'. " + EnvironmentListHead;
    var m := head + Join(es, ", ");
    assert m[|head|..] == Join(es, ", ");
  }

  /**
    A customer rejection lists the registry's keys, in their order; for a
    well-formed table that is every registered name exactly once.
   */
  lemma CustomerMessageListsAllKeys(t: Table, c: string, e: string, a: string)
    requires WellFormed(t)
    requires c !in t.entries
    ensures Validate(t, c, e, a) == Err(UnknownCustomer(c, t.keys))
    ensures Message(Validate(t, c, e, a).error)
      == "Customer '" + c + "' not recognized. " + CustomerListHead + Join(t.keys, ", ")
  {
  }

  /**
    For the registry read from `rows`, a customer rejection lists the names of
    the usable rows, each once, in the order in which they first appear.
   */
  lemma CustomerMessageInFileOrder(rows: seq<Row>, c: string, e: string, a: string)
    requires c !in Build(rows).entries
    ensures Message(Validate(Build(rows), c, e, a).error)
      == "Customer '" + c + "' not recognized. " + CustomerListHead + Join(FirstOccurrences(UsableNames(rows)), ", ")
  {
    CustomerMessageListsAllKeys(Build(rows), c, e, a);
    KeysInFirstAppearanceOrder(rows);
  }

  /** An unknown customer is reported whatever the environment and the application. */
  lemma CustomerCheckedFirst(t: Table, c: string, e1: string, a1: string, e2: string, a2: string)
    requires c !in t.entries
    ensures Validate(t, c, e1, a1) == Validate(t, c, e2, a2)
  {
  }

  /** For a known customer, a bad environment is reported whatever the application. */
  lemma EnvironmentCheckedBeforeApplication(t: Table, c: string, e: string, a1: string, a2: string)
    requires c in t.entries && e !in t.entries[c].environments
    ensures Validate(t, c, e, a1) == Validate(t, c, e, a2)
  {
  }

  /** The prompt advertises `open_access`, and the gate rejects it even for a valid customer and environment. */
  lemma AdvertisedNameRejected(t: Table, c: string, e: string)
    requires c in t.entries && e in t.entries[c].environments
    ensures "open_access" in AdvertisedApplications
    ensures Validate(t, c, e, "open_access") == Err(UnknownApplication("open_access"))
  {
  }
}
