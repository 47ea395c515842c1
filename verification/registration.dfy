/**
 Registration of accounts for a resource (an identity model such as users or
 guests) and confirmation of accounts by token. The store holds one table of
 accounts per resource, in creation order (an account's id is its position),
 and the sequence of confirmation mails delivered so far. Token generation is
 not modelled: fresh tokens and client ids arrive as parameters.
 */
module Registration {
  import opened Wrappers
  import opened Text

  const EmailField := "email"
  const NameField := "name"

  /** The error code every user-facing registration error carries */
  const UserErrorCode := "USER_ERROR"
  const RegistrationFailedMessage := "User couldn't be registered"
  const EmailBlankError := "Email can't be blank"
  const EmailTakenError := "Email has already been taken"
  /** Wording for a confirmable registration without a confirmation URL (not fixed by the tests) */
  const MissingRedirectMessage := "Missing confirmation redirect URL."

  function RedirectNotAllowedMessage(url: string): string {
    "Redirect to '" + url + "' not allowed."
  }

  /** Per-resource configuration, fixed at start-up */
  datatype Resource = Resource(
    name: string,
    confirmable: bool,
    caseInsensitiveFields: set<string>,
    redirectSafelist: set<string>)

  /** The arguments of a register mutation; the name and the confirmation URL are optional */
  datatype Params = Params(email: string, name: Option<string>, confirmUrl: Option<string>)

  /**
   Values a real run would draw at random. `Register` accepts any values;
   the lemmas that rely on the confirmation token being unused say so.
   */
  datatype Fresh = Fresh(confirmationToken: string, client: string, accessToken: string)

  datatype TokenRecord = TokenRecord(token: string)

  datatype Account = Account(
    id: nat,
    email: string,
    name: Option<string>,
    confirmedAt: Option<nat>,
    confirmationToken: Option<string>,
    tokens: map<string, TokenRecord>)

  /** Session credentials handed back by a registration that signs the account in */
  datatype Credentials = Credentials(accessToken: string, client: string, uid: string)

  /** A delivered confirmation mail: its link carries the token and redirect */
  datatype Mail = ConfirmationInstructions(resource: string, accountId: nat, token: string, redirect: string)

  datatype Store = Store(tables: map<string, seq<Account>>, deliveries: seq<Mail>)

  datatype GraphqlError = GraphqlError(message: string, code: Option<string>, detailedErrors: Option<seq<string>>)

  datatype Outcome =
    | Registered(account: Account, credentials: Option<Credentials>)
    | Failed(error: GraphqlError)

  datatype Step = Step(outcome: Outcome, store: Store)

  datatype Confirmation = Confirmed(account: Account) | InvalidToken

  datatype ConfirmStep = ConfirmStep(result: Confirmation, store: Store)

  /** The accounts of one resource, oldest first */
  function Table(st: Store, resource: string): seq<Account> {
    if resource in st.tables then st.tables[resource] else []
  }

  function UserError(message: string): GraphqlError {
    GraphqlError(message, Some(UserErrorCode), None)
  }

  /** Case-insensitive fields are stored and compared in lower case */
  function Normalize(r: Resource, field: string, value: string): (n: string)
    ensures |n| == |value|
    ensures field !in r.caseInsensitiveFields ==> n == value
    ensures field in r.caseInsensitiveFields ==>
              forall i :: 0 <= i < |n| ==> !IsUpper(n[i]) && SameUpToCase(value[i], n[i])
  {
    if field in r.caseInsensitiveFields then Downcase(value) else value
  }

  /** An account may sign in once confirmed, or at once on a non-confirmable resource */
  function ActiveForAuthentication(r: Resource, a: Account): (active: bool)
    ensures !r.confirmable ==> active
    ensures r.confirmable && a.confirmedAt.None? ==> !active
    ensures r.confirmable && a.confirmedAt.Some? ==> active
  {
    !r.confirmable || a.confirmedAt.Some?
  }

  predicate EmailTaken(table: seq<Account>, email: string) {
    exists a :: a in table && a.email == email
  }

  /** The redirect check: confirmable resources need a confirmation URL on the safelist */
  function RedirectAllowed(r: Resource, confirmUrl: Option<string>): (allowed: bool)
    ensures !r.confirmable ==> allowed
    ensures r.confirmable && confirmUrl.None? ==> !allowed
    ensures r.confirmable && confirmUrl.Some? ==> (allowed <==> confirmUrl.value in r.redirectSafelist)
  {
    !r.confirmable || (confirmUrl.Some? && confirmUrl.value in r.redirectSafelist)
  }

  /** Model validation of the normalised email, as full messages */
  function ValidationErrors(table: seq<Account>, email: string): (errors: seq<string>)
    ensures errors == [] <==> !Blank(email) && !EmailTaken(table, email)
    ensures Blank(email) ==> errors == [EmailBlankError]
  {
    if Blank(email) then [EmailBlankError]
    else if EmailTaken(table, email) then [EmailTakenError]
    else []
  }

  /** The account a successful registration appends */
  function NewAccount(r: Resource, p: Params, gen: Fresh, id: nat): Account {
    Account(
      id,
      Normalize(r, EmailField, p.email),
      if p.name.Some? then Some(Normalize(r, NameField, p.name.value)) else None,
      None,
      if r.confirmable then Some(gen.confirmationToken) else None,
      if r.confirmable then map[] else map[gen.client := TokenRecord(gen.accessToken)])
  }

  /**
   Registers an account. A confirmable resource first checks the confirmation
   URL against the safelist; then the normalised email is validated. On
   success the account is appended to the resource's table; a confirmable
   resource mails a confirmation token and returns no credentials, any other
   resource signs the account in on a new client.
   */
  function Register(r: Resource, p: Params, gen: Fresh, st: Store): (s: Step)
    // every rejection leaves the store alone and carries the user error code
    ensures s.outcome.Failed? ==> s.store == st && s.outcome.error.code == Some(UserErrorCode)
    // acceptance: redirect allowed, email present after normalisation and not yet taken
    ensures s.outcome.Registered? <==>
              RedirectAllowed(r, p.confirmUrl) && !Blank(p.email)
              && !EmailTaken(Table(st, r.name), Normalize(r, EmailField, p.email))
    ensures !RedirectAllowed(r, p.confirmUrl) ==> s.outcome.error.detailedErrors == None
    ensures s.outcome.Registered? ==>
              var a := s.outcome.account;
              && Table(s.store, r.name) == Table(st, r.name) + [a]
              && a.id == |Table(st, r.name)|
              && a.email == Normalize(r, EmailField, p.email)
              && a.confirmedAt.None?
              && (s.outcome.credentials.Some? <==> ActiveForAuthentication(r, a))
    // other resources' tables are untouched, whatever the outcome
    ensures forall other :: other != r.name ==> Table(s.store, other) == Table(st, other)
    ensures s.outcome.Registered? && r.confirmable ==>
              && s.outcome.account.confirmationToken == Some(gen.confirmationToken)
              && s.store.deliveries == st.deliveries + [ConfirmationInstructions(
                   r.name, s.outcome.account.id, gen.confirmationToken, p.confirmUrl.value)]
    ensures s.outcome.Registered? && !r.confirmable ==>
              && s.store.deliveries == st.deliveries
              && s.outcome.account.tokens.Keys == {gen.client}
              && s.outcome.account.tokens[gen.client] == TokenRecord(gen.accessToken)
              && s.outcome.credentials == Some(Credentials(gen.accessToken, gen.client, s.outcome.account.email))
  {
    if r.confirmable && p.confirmUrl.None? then
      Step(Failed(UserError(MissingRedirectMessage)), st)
    else if r.confirmable && p.confirmUrl.value !in r.redirectSafelist then
      Step(Failed(UserError(RedirectNotAllowedMessage(p.confirmUrl.value))), st)
    else
      var table := Table(st, r.name);
      var email := Normalize(r, EmailField, p.email);
      DowncasePreservesBlank(p.email);
      var errors := ValidationErrors(table, email);
      if errors != [] then
        Step(Failed(GraphqlError(RegistrationFailedMessage, Some(UserErrorCode), Some(errors))), st)
      else
        var a := NewAccount(r, p, gen, |table|);
        var deliveries :=
          if r.confirmable
          then st.deliveries + [ConfirmationInstructions(r.name, a.id, gen.confirmationToken, p.confirmUrl.value)]
          else st.deliveries;
        var credentials :=
          if r.confirmable then None else Some(Credentials(gen.accessToken, gen.client, email));
        Step(Registered(a, credentials), Store(st.tables[r.name := table + [a]], deliveries))
  }

  /** Position of the first account of `table` holding `token`, if any */
  function FindByConfirmationToken(table: seq<Account>, token: string): (i: Option<nat>)
    ensures i.Some? ==> i.value < |table| && table[i.value].confirmationToken == Some(token)
    ensures i.Some? ==> forall j :: 0 <= j < i.value ==> table[j].confirmationToken != Some(token)
    ensures i.None? <==> forall j :: 0 <= j < |table| ==> table[j].confirmationToken != Some(token)
  {
    if table == [] then None
    else if table[0].confirmationToken == Some(token) then Some(0)
    else
      match FindByConfirmationToken(table[1..], token)
      case None => None
      case Some(j) => Some(j + 1)
  }

  /**
   Confirms the account of `resource` that holds `token`, stamping it with
   `now` and spending the token; an unknown token is rejected.
   */
  function ConfirmByToken(resource: string, token: string, now: nat, st: Store): (c: ConfirmStep)
    ensures c.result.InvalidToken? <==>
              forall j :: 0 <= j < |Table(st, resource)| ==> Table(st, resource)[j].confirmationToken != Some(token)
    ensures c.result.InvalidToken? ==> c.store == st
    ensures c.result.Confirmed? ==>
              exists i :: 0 <= i < |Table(st, resource)| && Table(st, resource)[i].confirmationToken == Some(token)
                && c.result.account == Table(st, resource)[i].(confirmedAt := Some(now), confirmationToken := None)
                && Table(c.store, resource) == Table(st, resource)[i := c.result.account]
    ensures forall other :: other != resource ==> Table(c.store, other) == Table(st, other)
    ensures c.store.deliveries == st.deliveries
  {
    var table := Table(st, resource);
    match FindByConfirmationToken(table, token)
    case None => ConfirmStep(InvalidToken, st)
    case Some(i) =>
      var a := table[i].(confirmedAt := Some(now), confirmationToken := None);
      ConfirmStep(Confirmed(a), st.(tables := st.tables[resource := table[i := a]]))
  }

  /** Ids are positions, emails are unique, and no two accounts share a pending token */
  ghost predicate ValidTable(t: seq<Account>) {
    && (forall i :: 0 <= i < |t| ==> t[i].id == i)
    && (forall i, j :: 0 <= i < j < |t| ==> t[i].email != t[j].email)
    && (forall i, j :: 0 <= i < j < |t| && t[i].confirmationToken.Some? ==>
          t[i].confirmationToken != t[j].confirmationToken)
  }

  ghost predicate ValidStore(st: Store) {
    forall name :: name in st.tables ==> ValidTable(st.tables[name])
  }

  /** No account of the resource holds this confirmation token yet */
  ghost predicate TokenUnused(st: Store, resource: string, token: string) {
    forall j :: 0 <= j < |Table(st, resource)| ==> Table(st, resource)[j].confirmationToken != Some(token)
  }
}
