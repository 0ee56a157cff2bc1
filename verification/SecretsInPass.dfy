/** What a pass does to the secrets: it creates what is missing, and nothing a pass later changes. */
module SecretsInPass {
  import opened Trees
  import opened Spec
  import opened Validate
  import opened Objects
  import opened Inventory
  import opened Reconcile
  import N = Normalised

  /** A secret once its keys are there. */
  function SecretAfter(live: Option<Resource>, name: string, keys: seq<string>, owner: Owner, retain: bool, g: Generator): Resource {
    var o := Own(if live.Some? then live.value else Built(SecretKeys(keys), map[]), owner, retain);
    o.(data := AddKeys(o.data, name, keys, g))
  }

  lemma SecretEnsured(t: Turn, key: Key, keys: seq<string>, retain: bool, live: Option<Resource>)
    requires OnlyFills(t.setup.admit) && key.kind.Secret?
    ensures Ensured(live, key, SecretKeys(keys), map[], OwnerOf(t.cr), retain, t.generate, t.setup.admit)
            == Some(SecretAfter(live, key.name, keys, OwnerOf(t.cr), retain, t.generate))
  {
    var written := SecretAfter(live, key.name, keys, OwnerOf(t.cr), retain, t.generate);
    assert Filled(key, written, t.setup.admit(key, written));
    assert t.setup.admit(key, written) == written;
  }

  lemma SecretAgain(live: Option<Resource>, name: string, keys: seq<string>, owner: Owner, retain: bool, g: Generator, g': Generator)
    ensures var after := SecretAfter(live, name, keys, owner, retain, g);
            SecretAfter(Some(after), name, keys, owner, retain, g') == after
  {
    var o := Own(if live.Some? then live.value else Built(SecretKeys(keys), map[]), owner, retain);
    AddKeysAgain(o.data, name, keys, g, g');
  }

  // Creating the API key secrets.

  lemma CreateSecretAt(t: Turn, name: string, keys: seq<string>, store: Store, k: Key)
    requires OnlyFills(t.setup.admit)
    ensures Live(CreateSecret(t, name, keys, store), k)
            == if k == SecretKey(t.cr, name) then Some(SecretAfter(Live(store, k), name, keys, OwnerOf(t.cr), true, t.generate))
               else Live(store, k)
  {
    SecretEnsured(t, SecretKey(t.cr, name), keys, true, Live(store, SecretKey(t.cr, name)));
  }

  lemma CreateOthers(t: Turn, wanted: map<string, seq<string>>, order: seq<string>, store: Store, k: Key)
    requires OnlyFills(t.setup.admit) && forall n | n in order :: n in wanted
    requires forall n | n in order :: k != SecretKey(t.cr, n)
    ensures Live(CreateSecrets(t, wanted, order, store), k) == Live(store, k)
    decreases |order|
  {
    if order != [] {
      var front, n := order[..|order| - 1], order[|order| - 1];
      CreateOthers(t, wanted, front, store, k);
      CreateSecretAt(t, n, wanted[n], CreateSecrets(t, wanted, front, store), k);
    }
  }

  /** Every wanted secret gets its keys, in whatever order; nothing else changes. */
  lemma {:induction false} CreateWanted(t: Turn, wanted: map<string, seq<string>>, order: seq<string>, store: Store, n: string)
    requires OnlyFills(t.setup.admit) && forall n | n in order :: n in wanted
    requires n in order
    ensures Live(CreateSecrets(t, wanted, order, store), SecretKey(t.cr, n))
            == Some(SecretAfter(Live(store, SecretKey(t.cr, n)), n, wanted[n], OwnerOf(t.cr), true, t.generate))
    decreases |order|
  {
    var front, last := order[..|order| - 1], order[|order| - 1];
    var k := SecretKey(t.cr, n);
    CreateSecretAt(t, last, wanted[last], CreateSecrets(t, wanted, front, store), k);
    if n in front {
      CreateWanted(t, wanted, front, store, n);
      SecretAgain(Live(store, k), n, wanted[n], OwnerOf(t.cr), true, t.generate, t.generate);
    } else {
      CreateOthers(t, wanted, front, store, k);
    }
  }

  lemma SecretsOfAt(cr: Cr, store: Store, n: string)
    ensures n in SecretsOf(cr, store) <==> SecretKey(cr, n) in store
    ensures n in SecretsOf(cr, store) ==> SecretsOf(cr, store)[n] == store[SecretKey(cr, n)].data
  {
    assert SecretKey(cr, n).name == n;
  }

  lemma DataAt(cr: Cr, store: Store, n: string)
    ensures DataOf(SecretsOf(cr, store), n)
            == if Live(store, SecretKey(cr, n)).Some? then Live(store, SecretKey(cr, n)).value.data else map[]
  {
    SecretsOfAt(cr, store, n);
  }

  lemma CreatedSecret(t: Turn, wanted: map<string, seq<string>>, order: seq<string>, store: Store, n: string)
    requires OnlyFills(t.setup.admit) && forall n | n in order :: n in wanted
    requires n in order <==> n in wanted
    ensures var a, b := SecretsOf(t.cr, CreateSecrets(t, wanted, order, store)), WithWanted(SecretsOf(t.cr, store), wanted, t.generate);
            (n in a <==> n in b) && (n in a ==> a[n] == b[n])
  {
    hide CreateSecrets, SecretsOf, DataOf;
    var after := CreateSecrets(t, wanted, order, store);
    SecretsOfAt(t.cr, store, n);
    SecretsOfAt(t.cr, after, n);
    DataAt(t.cr, store, n);
    if n in wanted {
      CreateWanted(t, wanted, order, store, n);
    } else {
      CreateOthers(t, wanted, order, store, SecretKey(t.cr, n));
    }
  }

  lemma CreatedSecrets(t: Turn, wanted: map<string, seq<string>>, order: seq<string>, store: Store)
    requires OnlyFills(t.setup.admit) && forall n | n in order :: n in wanted
    requires forall n | n in wanted :: n in order
    ensures SecretsOf(t.cr, CreateSecrets(t, wanted, order, store)) == WithWanted(SecretsOf(t.cr, store), wanted, t.generate)
  {
    hide CreateSecrets, SecretsOf, WithWanted;
    var a, b := SecretsOf(t.cr, CreateSecrets(t, wanted, order, store)), WithWanted(SecretsOf(t.cr, store), wanted, t.generate);
    forall n: string ensures (n in a <==> n in b) && (n in a ==> a[n] == b[n]) {
      CreatedSecret(t, wanted, order, store, n);
    }
    assert a.Keys == b.Keys;
  }

  lemma WantedInOrder(c: Chance, cr: Cr)
    requires Orders(c, cr)
    ensures forall n: string :: n in c.order <==> n in N.WantProjects(map[], cr.spec.projects)
  {
    assert forall n: string :: n in c.order <==> n in set n | n in c.order;
  }

  lemma SecretsCreated(u: Setup, c: Chance, cr: Cr, store: Store)
    requires OnlyFills(u.admit) && Orders(c, cr)
    ensures var before := SecretsOf(cr, WithRoles(u, c.generate, cr, store));
            SecretsOf(cr, Validation(u, c, cr, store).0)
            == WithWanted(before, N.WantProjects(map[], cr.spec.projects), c.generate)
  {
    var ready := WithRoles(u, c.generate, cr, store);
    N.WantedDependsOnSpecOnly(ContextIn(u, cr, ready), cr.spec, c.generate);
    WantedInOrder(c, cr);
    CreatedSecrets(StartOf(u, c.generate, cr), N.WantProjects(map[], cr.spec.projects), c.order, ready);
  }

  lemma NormaliseInTwo(ctx: Context, spec: TelemetrySpec, generate: Generator)
    ensures var (before, log) := BeforeSecrets(ctx, spec);
            Normalise(ctx, spec, generate)
            == AfterSecrets(ctx.(secrets := WithWanted(ctx.secrets, log.apiKeySecrets, generate)), before, log)
  {
  }

  lemma ValidationInTwo(u: Setup, c: Chance, cr: Cr, store: Store)
    requires Orders(c, cr)
    ensures var (before, log) := BeforeSecrets(ContextIn(u, cr, WithRoles(u, c.generate, cr, store)), cr.spec);
            var (created, after, log') := Validation(u, c, cr, store);
            (after, log') == AfterSecrets(ContextIn(u, cr, created), before, log)
  {
  }

  /** In a pass, validation computes the normal form of the spec, and the store then holds every key it
      wants, next to all there was. */
  lemma ValidationNormalises(u: Setup, c: Chance, cr: Cr, store: Store)
    requires OnlyFills(u.admit) && Orders(c, cr)
    ensures var ctx := ContextIn(u, cr, WithRoles(u, c.generate, cr, store));
            var (created, after, log) := Validation(u, c, cr, store);
            && (after, log) == Normalise(ctx, cr.spec, c.generate)
            && SecretsOf(cr, created) == WithWanted(ctx.secrets, log.apiKeySecrets, c.generate)
            && log.apiKeySecrets == N.WantProjects(map[], cr.spec.projects)
            && N.SameShape(cr.spec, after)
  {
    var ctx := ContextIn(u, cr, WithRoles(u, c.generate, cr, store));
    N.WantedDependsOnSpecOnly(ctx, cr.spec, c.generate);
    N.ShapeDependsOnSpecOnly(ctx, cr.spec, c.generate);
    SecretsCreated(u, c, cr, store);
    NormaliseInTwo(ctx, cr.spec, c.generate);
    ValidationInTwo(u, c, cr, store);
  }

  lemma AllPresent(secrets: Secrets, wanted: map<string, seq<string>>, generate: Generator)
    requires forall n | n in wanted :: n in secrets && forall k | k in wanted[n] :: k in secrets[n]
    ensures WithWanted(secrets, wanted, generate) == secrets
  {
    forall n | n in wanted ensures AddKeys(secrets[n], n, wanted[n], generate) == secrets[n] {
      assert (map k | k in wanted[n] && k !in secrets[n] :: generate(n, k)) == map[];
    }
    assert WithWanted(secrets, wanted, generate).Keys == secrets.Keys;
  }

  lemma SameSecrets(cr: Cr, a: Store, b: Store)
    requires forall n: string :: Live(a, SecretKey(cr, n)) == Live(b, SecretKey(cr, n))
    ensures SecretsOf(cr, a) == SecretsOf(cr, b)
  {
    forall n: string
      ensures (n in SecretsOf(cr, a) <==> n in SecretsOf(cr, b)) && DataOf(SecretsOf(cr, a), n) == DataOf(SecretsOf(cr, b), n)
    {
      SecretsOfAt(cr, a, n);
      SecretsOfAt(cr, b, n);
      DataAt(cr, a, n);
      DataAt(cr, b, n);
    }
    assert SecretsOf(cr, a).Keys == SecretsOf(cr, b).Keys;
    forall n | n in SecretsOf(cr, a) ensures SecretsOf(cr, a)[n] == SecretsOf(cr, b)[n] {
      assert DataOf(SecretsOf(cr, a), n) == DataOf(SecretsOf(cr, b), n);
    }
  }
}
