/** The names an application answers to: its identity, its identifier and its aliases, compared
    as identity tokens. */
module AppNames {
  import opened Text
  import opened Model
  import opened Keyed

  predicate Answers(token: string -> string, app: Application, name: string) {
    || token(app.CanonicalAppID()) == name
    || token(app.id) == name
    || (name != "" && exists alias | alias in app.aliases :: token(alias) == name)
  }

  function AnswersTo(token: string -> string, name: string): Application -> bool {
    (app: Application) => Answers(token, app, name)
  }

  /** findAppInWorkspace: exactly one application must answer. */
  function FindApp(token: string -> string, apps: seq<Application>, reference: string): Option<nat> {
    Only(AnswersTo(token, token(reference)), apps)
  }

  /** Looking the application up again by its canonical identity finds the same one. */
  lemma CanonicalFindsTheSame(token: string -> string, apps: seq<Application>, reference: string)
    ensures var first := FindApp(token, apps, reference);
      first.Some? ==>
        && first.value < |apps|
        && var second := FindApp(token, apps, apps[first.value].CanonicalAppID());
           second.Some? ==> second == first
  {
    OnlyAnswers(AnswersTo(token, token(reference)), apps);
    var first := FindApp(token, apps, reference);
    if first.Some? {
      var canonical := apps[first.value].CanonicalAppID();
      assert Answers(token, apps[first.value], token(canonical));
      OnlyAnswers(AnswersTo(token, token(canonical)), apps);
    }
  }

  /** Whether an alias is among an application's normalised aliases. */
  predicate HasAlias(token: string -> string, app: Application, alias: string) {
    alias != "" && alias != token(app.CanonicalAppID()) && exists raw | raw in app.aliases :: token(raw) == alias
  }
}
