/**
 Resolution of the operations a resource exposes. The default operations are
 overlaid with custom handlers (only for keys the defaults already have), and
 the result is then narrowed by an allow-list (`only`) or a deny-list
 (`skipped`). Handlers are opaque values; keys are compared by equality.
 */
module OperationSanitizer {

  /** Whether a key survives the allow-list / deny-list step */
  predicate Kept<K>(k: K, only: set<K>, skipped: set<K>) {
    (only == {} || k in only) && k !in skipped
  }

  /** The handler a key resolves to after the custom overlay */
  function Pick<K, H>(defaults: map<K, H>, custom: map<K, H>, k: K): H
    requires k in defaults
  {
    if k in custom then custom[k] else defaults[k]
  }

  /** Overlay step: custom handlers replace defaults; unknown custom keys are dropped */
  function Merge<K, H>(defaults: map<K, H>, custom: map<K, H>): (m: map<K, H>)
    ensures m.Keys == defaults.Keys
    ensures forall k :: k in m ==> m[k] == Pick(defaults, custom, k)
  {
    map k | k in defaults :: Pick(defaults, custom, k)
  }

  /** Allow-list / deny-list step */
  function Filter<K, H>(m: map<K, H>, only: set<K>, skipped: set<K>): (r: map<K, H>)
    ensures r.Keys <= m.Keys
    ensures forall k :: k in m ==> (k in r <==> Kept(k, only, skipped))
    ensures forall k :: k in r ==> r[k] == m[k]
  {
    map k | k in m && Kept(k, only, skipped) :: m[k]
  }

  /**
   The sanitised operation map: a key is present exactly when the defaults
   have it and the lists keep it, and it maps to the custom handler when one
   is given, otherwise to the default one. The two lists are never combined.
   */
  function Sanitize<K, H>(defaults: map<K, H>, custom: map<K, H>, only: set<K>, skipped: set<K>): (r: map<K, H>)
    requires only == {} || skipped == {}
    ensures r.Keys <= defaults.Keys
    ensures forall k :: k in defaults ==> (k in r <==> Kept(k, only, skipped))
    ensures forall k :: k in r ==> r[k] == (if k in custom then custom[k] else defaults[k])
  {
    Filter(Merge(defaults, custom), only, skipped)
  }

  /** With nothing but defaults, the defaults come back unchanged */
  lemma DefaultsOnlyIsIdentity<K, H>(defaults: map<K, H>)
    ensures Sanitize(defaults, map[], {}, {}) == defaults
  {
  }

  /** A custom handler for a default key replaces it; one for an unknown key never appears */
  lemma CustomOverridesOnlyExistingKeys<K, H>(defaults: map<K, H>, custom: map<K, H>, k: K)
    ensures k in defaults && k in custom ==> Sanitize(defaults, custom, {}, {})[k] == custom[k]
    ensures k !in defaults ==> k !in Sanitize(defaults, custom, {}, {})
  {
  }

  /** Default entries no custom handler names keep their default handler */
  lemma UnmentionedDefaultsKept<K, H>(defaults: map<K, H>, custom: map<K, H>, k: K)
    requires k in defaults && k !in custom
    ensures Sanitize(defaults, custom, {}, {})[k] == defaults[k]
  {
  }

  /** Custom entries whose keys the defaults do not have make no difference at all */
  lemma UnknownCustomKeysIgnored<K, H>(defaults: map<K, H>, custom: map<K, H>, only: set<K>, skipped: set<K>)
    requires only == {} || skipped == {}
    ensures Sanitize(defaults, custom, only, skipped)
         == Sanitize(defaults, map k | k in custom && k in defaults :: custom[k], only, skipped)
  {
  }

  /** A non-empty allow-list keeps exactly the listed default keys, handlers unchanged */
  lemma OnlyRestrictsToListed<K, H>(defaults: map<K, H>, only: set<K>)
    requires only != {}
    ensures Sanitize(defaults, map[], only, {}) == map k | k in defaults && k in only :: defaults[k]
  {
  }

  /** A deny-list removes the listed keys and preserves every other entry */
  lemma SkippedRemovesListed<K, H>(defaults: map<K, H>, skipped: set<K>)
    ensures Sanitize(defaults, map[], {}, skipped) == defaults - skipped
  {
  }

  /** Filtering the defaults before the overlay gives the same operations as after it */
  lemma FilterThenMergeAgrees<K, H>(defaults: map<K, H>, custom: map<K, H>, only: set<K>, skipped: set<K>)
    requires only == {} || skipped == {}
    ensures Merge(Filter(defaults, only, skipped), custom) == Sanitize(defaults, custom, only, skipped)
  {
  }

  /**
   Builds the same map by walking the default keys one at a time, adding each
   kept key with its resolved handler.
   */
  method SanitizeByWalk<K, H>(defaults: map<K, H>, custom: map<K, H>, only: set<K>, skipped: set<K>)
    returns (r: map<K, H>)
    requires only == {} || skipped == {}
    ensures r == Sanitize(defaults, custom, only, skipped)
  {
    r := map[];
    var pending := defaults.Keys;
    while pending != {}
      invariant pending <= defaults.Keys
      invariant forall k :: k in r <==> k in defaults && k !in pending && Kept(k, only, skipped)
      invariant forall k :: k in r ==> r[k] == Pick(defaults, custom, k)
      decreases |pending|
    {
      var k :| k in pending;
      if Kept(k, only, skipped) {
        r := r[k := Pick(defaults, custom, k)];
      }
      pending := pending - {k};
    }
    assert r.Keys == Sanitize(defaults, custom, only, skipped).Keys;
  }

  /** The four scenarios of the sanitiser's behaviour on two default operations */
  lemma SanitizerScenarios()
    ensures var defaults := map["operation1" := "op_class1", "operation2" := "op_class2"];
            && Sanitize(defaults, map[], {}, {}) == defaults
            && Sanitize(defaults, map["operation1" := "op_class3", "bad_operation" := "GraphQL::Schema::Resolver"], {}, {})
               == map["operation1" := "op_class3", "operation2" := "op_class2"]
            && Sanitize(defaults, map[], {"operation1"}, {}) == map["operation1" := "op_class1"]
            && Sanitize(defaults, map[], {}, {"operation2"}) == map["operation1" := "op_class1"]
  {
  }
}
