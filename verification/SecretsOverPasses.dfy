/** Secrets over passes: nothing in them is ever changed or taken away, and every API key a project
    refers to is there after any one pass. */
module SecretsOverPasses {
  import opened Trees
  import opened ConfigEnvs
  import opened Spec
  import opened Validate
  import opened Objects
  import opened Inventory
  import opened Reconcile
  import opened Passes
  import opened Convergence
  import N = Normalised

  predicate Keeps(before: Option<Resource>, after: Option<Resource>) {
    before.Some? ==>
      && after.Some?
      && (forall k | k in before.value.data :: k in after.value.data && after.value.data[k] == before.value.data[k])
  }

  lemma KeyPassKeeps(cr: Cr, g: Generator, n: string, o: Option<Resource>)
    ensures Keeps(o, KeyPass(cr, g, n, o))
  {
  }

  /** No pass changes or removes a key of a secret, in whatever namespace. */
  lemma PassKeepsSecrets(u: Setup, c: Chance, cr: Cr, w: World, key: Key)
    requires OnlyFills(u.admit) && Orders(c, cr) && NoRecords(cr.spec) && Counted(cr.spec)
    requires key.kind.Secret?
    ensures Keeps(Live(w.store, key), Live(Pass(u, c, cr, w).store, key))
  {
    if key.namespace == cr.namespace {
      assert key == SecretKey(cr, key.name);
      PassOnSecret(u, c, cr, w, key.name);
      KeyPassKeeps(cr, c.generate, key.name, Live(w.store, key));
    } else {
      PassOnForeignSecret(u, c, cr, w, key);
    }
  }

  lemma {:induction false} RunKeepsSecrets(u: Setup, chances: seq<Chance>, cr: Cr, w: World, key: Key)
    requires OnlyFills(u.admit) && NoRecords(cr.spec) && Counted(cr.spec) && AllOrder(chances, cr)
    requires key.kind.Secret?
    ensures Keeps(Live(w.store, key), Live(Run(u, chances, cr, w).store, key))
    decreases |chances|
  {
    if chances != [] {
      PassKeepsSecrets(u, chances[0], cr, w, key);
      RunKeepsSecrets(u, chances[1..], cr, Pass(u, chances[0], cr, w), key);
    }
  }

  lemma {:induction false} KeyWanted(wanted: map<string, seq<string>>, keys: seq<Credential>, s: Selector)
    requires (s.name in wanted && s.key in wanted[s.name]) || exists k | k in keys :: k.secret == Some(s)
    ensures var w := N.WantKeys(wanted, keys); s.name in w && s.key in w[s.name]
    decreases |keys|
  {
    if keys != [] {
      var front, last := keys[..|keys| - 1], keys[|keys| - 1];
      assert keys == front + [last];
      if last.secret != Some(s) {
        KeyWanted(wanted, front, s);
      } else {
        assert s.key in [s.key];
      }
    }
  }

  lemma {:induction false} ProjectKeyWanted(ps: seq<Project>, i: nat, s: Selector)
    requires i < |ps| && exists k | k in ps[i].apiKeys :: k.secret == Some(s)
    ensures var w := N.WantProjects(map[], ps); s.name in w && s.key in w[s.name]
    decreases |ps|
  {
    var front, last := ps[..|ps| - 1], ps[|ps| - 1];
    if i < |ps| - 1 {
      ProjectKeyWanted(front, i, s);
    }
    KeyWanted(N.WantProjects(map[], front), last.apiKeys, s);
  }

  /** After any pass, from any store, every secret key any project refers to for an API key exists. */
  lemma PassCoversApiKeys(u: Setup, c: Chance, cr: Cr, w: World, i: nat, s: Selector)
    requires OnlyFills(u.admit) && Orders(c, cr) && NoRecords(cr.spec) && Counted(cr.spec)
    requires i < |cr.spec.projects| && exists k | k in cr.spec.projects[i].apiKeys :: k.secret == Some(s)
    ensures HasSecret(SecretsOf(cr, Pass(u, c, cr, w).store), s)
  {
    ProjectKeyWanted(cr.spec.projects, i, s);
    WantedArePresent(u, c, cr, w);
  }
}
