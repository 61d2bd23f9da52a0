/** Which sessions share a binding (internal/provider/session/cache.go). */
module BindingKeys {
  import opened Prelude
  import opened Selectors

  /** The model as a key has it. */
  function KeyModel(model: string): string {
    if Canonical(model) == "" then "*" else Canonical(model)
  }

  lemma KeyIs(model: string, session: string)
    requires TrimSpace(session) != ""
    ensures BindingKey(model, session) == KeyModel(model) + "::" + TrimSpace(session)
  {
  }

  /** Under one model two sessions share a binding only if they are the same but for blanks. */
  lemma SessionsAreSeparate(model: string, s: string, t: string)
    requires TrimSpace(s) != "" && TrimSpace(t) != ""
    ensures BindingKey(model, s) == BindingKey(model, t) <==> TrimSpace(s) == TrimSpace(t)
  {
    var head := KeyModel(model) + "::";
    KeyIs(model, s);
    KeyIs(model, t);
    assert BindingKey(model, s)[|head|..] == TrimSpace(s);
    assert BindingKey(model, t)[|head|..] == TrimSpace(t);
  }

  /** And one session has a binding of its own for every model. */
  lemma ModelsAreSeparate(m: string, n: string, session: string)
    requires TrimSpace(session) != ""
    ensures BindingKey(m, session) == BindingKey(n, session) <==> KeyModel(m) == KeyModel(n)
  {
    KeyIs(m, session);
    KeyIs(n, session);
    SameTail(KeyModel(m), KeyModel(n), "::" + TrimSpace(session));
    assert KeyModel(m) + "::" + TrimSpace(session) == KeyModel(m) + ("::" + TrimSpace(session));
    assert KeyModel(n) + "::" + TrimSpace(session) == KeyModel(n) + ("::" + TrimSpace(session));
  }

  lemma SameTail(a: string, b: string, tail: string)
    ensures a + tail == b + tail <==> a == b
  {
    if a + tail == b + tail {
      assert a == (a + tail)[..|a|] && b == (b + tail)[..|b|];
    }
  }

  /** `longer` goes on after `shorter` with what can be read as the separator. */
  predicate ReadsOn(shorter: string, longer: string) {
    && shorter < longer
    && var more := longer[|shorter|..];
       more == ":" || ("::" <= more && (|more| > 2 ==> !IsSpace(more[2])))
  }

  lemma SharedKeyReadsOn(a: string, s: string, b: string, t: string)
    requires a + "::" + s == b + "::" + t && |a| < |b| && s != "" && !IsSpace(s[0])
    ensures ReadsOn(a, b)
  {
    var key := a + "::" + s;
    assert key[..|a|] == a && key[..|b|] == b && key[|b|] == ':' && key[|b| + 1] == ':';
    assert a < b;
    var more := b[|a|..];
    assert more[0] == key[|a|] == ':';
    if |more| > 1 {
      assert more[1] == key[|a| + 1] == ':';
      assert more[..2] == "::";
    }
    if |more| > 2 {
      assert more[2] == key[|a| + 2] == s[0];
    }
  }

  lemma ReadOnShares(a: string, b: string) returns (s: string, t: string)
    requires ReadsOn(a, b)
    ensures TrimSpace(s) == s != "" && TrimSpace(t) == t != "" && a + "::" + s == b + "::" + t
  {
    var more := b[|a|..];
    t := "x";
    TrimOfTrimmed(t, IsSpace);
    var rest := more + "::" + t;
    s := rest[2..];
    assert rest[..2] == "::";
    assert rest == "::" + s;
    assert s[|s| - 1] == 'x';
    assert |more| > 2 ==> s[0] == more[2];
    TrimOfTrimmed(s, IsSpace);
    assert b == a + more;
    assert a + "::" + s == a + rest;
  }

  /** Different models can share a key, for some two sessions, exactly if one goes on after the
      other with what can be read as the separator: "a" and "a::b", for instance. */
  lemma ModelsShareKeysExactly(m: string, n: string)
    requires KeyModel(m) != KeyModel(n)
    ensures (exists s, t :: TrimSpace(s) != "" && TrimSpace(t) != "" && BindingKey(m, s) == BindingKey(n, t)) <==>
            ReadsOn(KeyModel(m), KeyModel(n)) || ReadsOn(KeyModel(n), KeyModel(m))
  {
    var a, b := KeyModel(m), KeyModel(n);
    if s, t :| TrimSpace(s) != "" && TrimSpace(t) != "" && BindingKey(m, s) == BindingKey(n, t) {
      TrimIsTrimmed(s, IsSpace);
      TrimIsTrimmed(t, IsSpace);
      SharedKeyOrders(a, TrimSpace(s), b, TrimSpace(t));
    }
    if ReadsOn(a, b) {
      var s, t := ReadOnShares(a, b);
      KeyIs(m, s);
      KeyIs(n, t);
    }
    if ReadsOn(b, a) {
      var t, s := ReadOnShares(b, a);
      KeyIs(m, s);
      KeyIs(n, t);
    }
  }

  lemma SharedKeyOrders(a: string, s: string, b: string, t: string)
    requires a + "::" + s == b + "::" + t && a != b && s != "" && !IsSpace(s[0]) && t != "" && !IsSpace(t[0])
    ensures ReadsOn(a, b) || ReadsOn(b, a)
  {
    var key := a + "::" + s;
    assert a == key[..|a|] && b == key[..|b|];
    if |a| < |b| {
      SharedKeyReadsOn(a, s, b, t);
    } else {
      SharedKeyReadsOn(b, t, a, s);
    }
  }
}
