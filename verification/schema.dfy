/**
 Mounting a resource into the schema: its operations are the sanitised
 default operations, and its register mutation (named after the resource,
 e.g. `userRegister`) only exists when the register operation survived.
 */
module Schema {
  import opened Wrappers
  import opened OperationSanitizer
  import opened Registration

  const RegisterOperation := "register"

  /** A mutation handler, identified by its class */
  datatype Handler = Handler(className: string)

  datatype MountedResource = MountedResource(resource: Resource, operations: map<string, Handler>)

  /** The mount options of one resource */
  datatype MountOptions = MountOptions(custom: map<string, Handler>, only: set<string>, skipped: set<string>)

  /** Mounts a resource: its operations are the defaults sanitised by the mount options */
  function Mount(r: Resource, defaults: map<string, Handler>, opts: MountOptions): (m: MountedResource)
    requires opts.only == {} || opts.skipped == {}
    ensures m.resource == r
    ensures m.operations.Keys <= defaults.Keys
    ensures forall k :: k in opts.skipped ==> k !in m.operations
    ensures opts.only != {} ==> m.operations.Keys <= opts.only
    ensures forall k :: k in defaults ==> (k in m.operations <==> Kept(k, opts.only, opts.skipped))
    ensures forall k :: k in m.operations && k in opts.custom ==> m.operations[k] == opts.custom[k]
    ensures forall k :: k in m.operations && k !in opts.custom ==> m.operations[k] == defaults[k]
  {
    MountedResource(r, Sanitize(defaults, opts.custom, opts.only, opts.skipped))
  }

  function RegisterFieldName(r: Resource): string {
    r.name + "Register"
  }

  function MissingFieldMessage(field: string): string {
    "Field '" + field + "' doesn't exist on type 'Mutation'"
  }

  /**
   Runs the resource's register mutation; a resource whose register operation
   was sanitised away has no such field, and the request fails without
   touching the store.
   */
  function RegisterMutation(m: MountedResource, p: Params, gen: Fresh, st: Store): (s: Step)
    ensures s.outcome.Failed? ==> s.store == st
    ensures RegisterOperation !in m.operations ==>
              s.outcome.Failed? && s.outcome.error.code.None?
              && s.outcome.error.message == MissingFieldMessage(RegisterFieldName(m.resource))
    ensures RegisterOperation in m.operations ==> s == Register(m.resource, p, gen, st)
  {
    if RegisterOperation in m.operations then Register(m.resource, p, gen, st)
    else Step(Failed(GraphqlError(MissingFieldMessage(RegisterFieldName(m.resource)), None, None)), st)
  }

  /** The register mutation exists exactly when the defaults have it and the mount options keep it */
  lemma RegisterExposedIff(r: Resource, defaults: map<string, Handler>, opts: MountOptions)
    requires opts.only == {} || opts.skipped == {}
    ensures RegisterOperation in Mount(r, defaults, opts).operations <==>
              RegisterOperation in defaults
              && (opts.only == {} || RegisterOperation in opts.only)
              && RegisterOperation !in opts.skipped
  {
  }

  /** Skipping the register operation removes the mutation: any call fails and changes nothing */
  lemma SkippedRegisterIsMissingField(r: Resource, defaults: map<string, Handler>, opts: MountOptions,
                                      p: Params, gen: Fresh, st: Store)
    requires opts.only == {} && RegisterOperation in opts.skipped
    ensures var s := RegisterMutation(Mount(r, defaults, opts), p, gen, st);
            && s.outcome == Failed(GraphqlError(MissingFieldMessage(RegisterFieldName(r)), None, None))
            && s.store == st
  {
  }

  /** The admin resource, mounted with its register operation skipped, has no `adminRegister` field */
  lemma AdminRegisterSkipped(r: Resource, defaults: map<string, Handler>, p: Params, gen: Fresh, st: Store)
    requires r.name == "admin"
    ensures var s := RegisterMutation(Mount(r, defaults, MountOptions(map[], {}, {RegisterOperation})), p, gen, st);
            && s.outcome == Failed(GraphqlError(MissingFieldMessage("adminRegister"), None, None))
            && s.store == st
  {
  }
}
