/** The identity tables: which application owns which service, and which alias names it. */
module Identity {
  import opened Text

  datatype Row = Row(service: string, repository: string)

  /** application_identities and application_aliases. */
  datatype Tables = Tables(identities: map<string, Row>, aliases: map<string, string>)

  datatype Error =
    | EmptyApplication
    | AliasTaken(alias: string, owner: string)
    | ServiceTaken(service: string)

  datatype Bound = Bound(tables: Tables) | Refused(error: Error)

  /** A binding as it arrives, with raw names. */
  datatype Binding = Binding(app: string, service: string, repository: string, aliases: seq<string>)

  // ---- One binding ----

  /** The service an application ends up with: the registered one if none is named, itself if
      there is none yet. */
  function ServiceFor(t: Tables, app: string, service: string): string {
    if service != "" then service else if app in t.identities then t.identities[app].service else app
  }

  function RepositoryFor(t: Tables, app: string, repository: string): string {
    if repository == "" && app in t.identities then t.identities[app].repository else repository
  }

  predicate Taken(t: Tables, app: string, alias: string) {
    (alias in t.aliases && t.aliases[alias] != app) || (alias in t.identities && alias != app)
  }

  function OwnerOfName(t: Tables, app: string, alias: string): string {
    if alias in t.aliases && t.aliases[alias] != app then t.aliases[alias] else alias
  }

  function BindAlias(t: Tables, app: string, alias: string): Bound {
    if alias == "" || alias == app then Bound(t)
    else if Taken(t, app, alias) then Refused(AliasTaken(alias, OwnerOfName(t, app, alias)))
    else Bound(t.(aliases := t.aliases[alias := app]))
  }

  function BindAliases(token: string -> string, t: Tables, app: string, aliases: seq<string>): Bound {
    if aliases == [] then Bound(t)
    else
      match BindAliases(token, t, app, aliases[..|aliases| - 1])
      case Refused(e) => Refused(e)
      case Bound(rest) => BindAlias(rest, app, token(aliases[|aliases| - 1]))
  }

  function Register(t: Tables, app: string, row: Row): Tables {
    t.(identities := t.identities[app := row])
  }

  /** ensureApplicationIdentityTx: the tables it leaves, or why it is refused. */
  function Bind(token: string -> string, t: Tables, b: Binding): Bound {
    var app, service := token(b.app), token(b.service);
    if app == "" then Refused(EmptyApplication)
    else if app in t.aliases && t.aliases[app] != app then Refused(AliasTaken(app, t.aliases[app]))
    else if app in t.identities && t.identities[app].service != ServiceFor(t, app, service) then
      Refused(ServiceTaken(t.identities[app].service))
    else
      BindAliases(token, Register(t, app, Row(ServiceFor(t, app, service), RepositoryFor(t, app, token(b.repository)))),
                  app, b.aliases)
  }

  // ---- The tables as the database holds them ----

  class Database {
    var identities: map<string, Row>
    var aliases: map<string, string>

    constructor ()
      ensures Contents() == Tables(map[], map[])
    {
      identities, aliases := map[], map[];
    }

    ghost function Contents(): Tables
      reads this
    {
      Tables(identities, aliases)
    }

    /** One transaction: the writes stay only if every check passes. */
    method EnsureApplicationIdentity(token: string -> string, b: Binding) returns (error: Option<Error>)
      modifies this
      ensures match Bind(token, old(Contents()), b)
        case Bound(t) => error == None && Contents() == t
        case Refused(e) => error == Some(e) && Contents() == old(Contents())
    {
      var identitiesBefore, aliasesBefore := identities, aliases;
      error := Write(token, b);
      if error.Some? {
        identities, aliases := identitiesBefore, aliasesBefore;
      }
    }

    /** The statements inside the transaction, up to the first that fails. */
    method Write(token: string -> string, b: Binding) returns (error: Option<Error>)
      modifies this
      ensures match Bind(token, old(Contents()), b)
        case Bound(t) => error == None && Contents() == t
        case Refused(e) => error == Some(e)
    {
      var app, service, repository := token(b.app), token(b.service), token(b.repository);
      if app == "" {
        return Some(EmptyApplication);
      }
      if app in aliases && aliases[app] != app {
        return Some(AliasTaken(app, aliases[app]));
      }
      if app in identities {
        if service == "" {
          service := identities[app].service;
        }
        if identities[app].service != service {
          return Some(ServiceTaken(identities[app].service));
        }
        if repository == "" {
          repository := identities[app].repository;
        }
      } else if service == "" {
        service := app;
      }
      identities := identities[app := Row(service, repository)];
      error := WriteAliases(token, app, b.aliases);
    }

    method WriteAliases(token: string -> string, app: string, names: seq<string>) returns (error: Option<Error>)
      modifies this`aliases
      ensures match BindAliases(token, old(Contents()), app, names)
        case Bound(t) => error == None && Contents() == t
        case Refused(e) => error == Some(e)
    {
      ghost var start := Contents();
      for i := 0 to |names|
        invariant BindAliases(token, start, app, names[..i]) == Bound(Contents())
        invariant identities == old(identities)
      {
        assert names[..i + 1][..i] == names[..i];
        var alias := token(names[i]);
        if alias != "" && alias != app {
          if alias in aliases && aliases[alias] != app {
            error := Some(AliasTaken(alias, aliases[alias]));
            RefusedEarly(token, start, app, names, i + 1);
            return;
          }
          if alias in identities && alias != app {
            error := Some(AliasTaken(alias, alias));
            RefusedEarly(token, start, app, names, i + 1);
            return;
          }
          aliases := aliases[alias := app];
        }
      }
      assert names[..|names|] == names;
      error := None;
    }
  }

  lemma {:induction false} RefusedEarly(token: string -> string, t: Tables, app: string, names: seq<string>, n: nat)
    requires n <= |names| && BindAliases(token, t, app, names[..n]).Refused?
    ensures BindAliases(token, t, app, names) == BindAliases(token, t, app, names[..n])
    decreases |names| - n
  {
    if n < |names| {
      assert names[..n + 1][..n] == names[..n];
      RefusedEarly(token, t, app, names, n + 1);
    } else {
      assert names[..n] == names;
    }
  }

  // ---- The tables stay unambiguous ----

  /** No alias is an application's own name, and every alias has a registered owner. */
  ghost predicate Unambiguous(t: Tables) {
    && (forall a | a in t.aliases :: a !in t.identities)
    && (forall a | a in t.aliases :: t.aliases[a] in t.identities)
  }

  lemma AliasNamesAnother(t: Tables, alias: string)
    requires Unambiguous(t) && alias in t.aliases
    ensures t.aliases[alias] != alias
  {
    assert t.aliases[alias] in t.identities;
  }

  lemma RegisterKeeps(t: Tables, app: string, row: Row)
    requires Unambiguous(t) && (app in t.aliases ==> t.aliases[app] == app)
    ensures Unambiguous(Register(t, app, row))
  {
    if app in t.aliases {
      AliasNamesAnother(t, app);
      assert false;
    }
  }

  lemma {:induction false} AliasesKeep(token: string -> string, t: Tables, app: string, names: seq<string>)
    requires Unambiguous(t) && app in t.identities
    ensures var r := BindAliases(token, t, app, names);
      r.Bound? ==>
        && Unambiguous(r.tables) && r.tables.identities == t.identities
        && t.aliases.Keys <= r.tables.aliases.Keys
    ensures var r := BindAliases(token, t, app, names);
      r.Bound? ==> forall a | a in t.aliases :: r.tables.aliases[a] == t.aliases[a]
  {
    if names != [] {
      AliasesKeep(token, t, app, names[..|names| - 1]);
    }
  }

  /** What was registered before is registered still: services and aliases do not change hands. */
  ghost predicate OnlyAdds(before: Tables, after: Tables) {
    && (forall app | app in before.identities ::
        app in after.identities && after.identities[app].service == before.identities[app].service)
    && (forall a | a in before.aliases :: a in after.aliases && after.aliases[a] == before.aliases[a])
  }

  /** A binding keeps the tables unambiguous and takes nothing away. */
  lemma BindKeeps(token: string -> string, t: Tables, b: Binding)
    requires Unambiguous(t) && Bind(token, t, b).Bound?
    ensures Unambiguous(Bind(token, t, b).tables) && OnlyAdds(t, Bind(token, t, b).tables)
  {
    var app, service := token(b.app), token(b.service);
    var row := Row(ServiceFor(t, app, service), RepositoryFor(t, app, token(b.repository)));
    RegisterKeeps(t, app, row);
    AliasesKeep(token, Register(t, app, row), app, b.aliases);
  }

  /** Afterwards the application is registered and each of its names leads to it. */
  lemma {:induction false} NamesLeadToTheApplication(token: string -> string, t: Tables, app: string,
                                                     names: seq<string>, name: string)
    requires BindAliases(token, t, app, names).Bound? && name in names && token(name) != "" && token(name) != app
    ensures var after := BindAliases(token, t, app, names).tables;
      token(name) in after.aliases && after.aliases[token(name)] == app
  {
    var init, last := names[..|names| - 1], names[|names| - 1];
    assert names == init + [last];
    if name in init {
      NamesLeadToTheApplication(token, t, app, init, name);
    }
  }

  // ---- Any sequence of bindings ----

  /** The tables after each binding was accepted or refused in turn. */
  function BindAll(token: string -> string, t: Tables, bindings: seq<Binding>): Tables {
    if bindings == [] then t
    else
      var before := BindAll(token, t, bindings[..|bindings| - 1]);
      match Bind(token, before, bindings[|bindings| - 1])
      case Bound(after) => after
      case Refused(_) => before
  }

  /** From empty tables, whatever is bound and refused, no alias is an application's own name
      and every alias has a registered owner. */
  lemma {:induction false} TablesStayUnambiguous(token: string -> string, bindings: seq<Binding>)
    ensures Unambiguous(BindAll(token, Tables(map[], map[]), bindings))
  {
    if bindings != [] {
      var init, last := bindings[..|bindings| - 1], bindings[|bindings| - 1];
      var before := BindAll(token, Tables(map[], map[]), init);
      TablesStayUnambiguous(token, init);
      if Bind(token, before, last).Bound? {
        BindKeeps(token, before, last);
      }
    }
  }

  /** What an application's service or an alias's owner once is, it remains. */
  lemma {:induction false} RegistrationsStay(token: string -> string, bindings: seq<Binding>, n: nat)
    requires n <= |bindings|
    ensures OnlyAdds(BindAll(token, Tables(map[], map[]), bindings[..n]),
                     BindAll(token, Tables(map[], map[]), bindings))
    decreases |bindings|
  {
    if n == |bindings| {
      assert bindings[..n] == bindings;
    } else {
      var init, last := bindings[..|bindings| - 1], bindings[|bindings| - 1];
      assert init[..n] == bindings[..n];
      var before := BindAll(token, Tables(map[], map[]), init);
      RegistrationsStay(token, init, n);
      TablesStayUnambiguous(token, init);
      if Bind(token, before, last).Bound? {
        BindKeeps(token, before, last);
      }
    }
  }
}
