/** What a request and its grant promise each other, in the words of the request:
    the statements about whole runs are made in these terms and not through the
    functions that compute a grant. */
module Promises {
  import opened Wrappers
  import opened Text
  import opened Identity
  import opened AuthorizeForm
  import opened Authorize

  /** The scope asked for, or the server's first when none was. */
  predicate ScopeAsked(cfg: Config, p: AuthParams, scope: string) {
    && (p.scope != "" ==> scope == p.scope)
    && (p.scope == "" ==> cfg.scopes != [] && scope == cfg.scopes[0])
  }

  /** The allowed audience asked for, or the default when none was. */
  predicate AudienceAsked(cfg: Config, p: AuthParams, resource: string) {
    && (p.resource == "" ==> resource == cfg.default)
    && (p.resource != "" ==> resource == TrimRight(p.resource, '/') && resource in cfg.resources)
  }

  /** bound is what a token for the resource shows of the binding: the host's
      projection, once, or without one the binding itself. */
  predicate ShownAs(cfg: Config, binding: Binding, resource: string, bound: Binding) {
    && (cfg.bindingForResource.None? ==> bound == binding)
    && (cfg.bindingForResource.Some? ==> bound == cfg.bindingForResource.value(binding, resource))
  }

  /** The verifier proves the challenge, under S256 only. */
  predicate Proves(cfg: Config, challenge: string, challengeMethod: string, verifier: string) {
    challengeMethod == "S256" && challenge != "" && verifier != "" && cfg.s256(verifier) == challenge
  }

  lemma ResolvesAsked(cfg: Config, p: AuthParams)
    ensures forall resource :: cfg.default in cfg.resources ==>
              (ResolveFor(cfg, p) == Some(resource) <==> AudienceAsked(cfg, p, resource))
  {
  }
}
