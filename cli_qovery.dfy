/** The Qovery provider of the command-line tool: it picks the name and the
    stack out of a Heroku application record. */
module CliQovery {
  import opened Sources

  datatype QoveryProvider = QoveryProvider(apiKey: string)

  /** `NewQoveryProvider`: the key is kept verbatim. */
  function NewQoveryProvider(apiKey: string): (p: QoveryProvider)
    ensures p.apiKey == apiKey
  {
    QoveryProvider(apiKey)
  }

  /** Indexing a Go map: the stored value, or nil when the key is absent. */
  function Lookup(m: map<string, Value>, key: string): (v: Value)
    ensures key in m ==> v == m[key]
    ensures key !in m ==> v == Nil
  {
    if key in m then m[key] else Nil
  }

  /** `TranslateConfig`: exactly the keys `app_name`, `destination` and `stack`;
      `app_name` and `stack` are the record's `name` and `stack` (nil when
      missing) and `destination` is the argument. */
  function TranslateConfig(p: QoveryProvider, herokuConfig: map<string, Value>, destination: string)
    : (r: map<string, Value>)
    ensures r.Keys == {"app_name", "destination", "stack"}
    ensures r["app_name"] == Lookup(herokuConfig, "name")
    ensures r["destination"] == Str(destination)
    ensures r["stack"] == Lookup(herokuConfig, "stack")
  {
    map["app_name" := Lookup(herokuConfig, "name"), "destination" := Str(destination),
        "stack" := Lookup(herokuConfig, "stack")]
  }

  /** Only `name` and `stack` of the record matter: records that agree on them
      translate alike, and every other attribute is dropped. */
  lemma TranslateConfigReadsNameAndStack(p: QoveryProvider, h1: map<string, Value>, h2: map<string, Value>, destination: string)
    requires Lookup(h1, "name") == Lookup(h2, "name") && Lookup(h1, "stack") == Lookup(h2, "stack")
    ensures TranslateConfig(p, h1, destination) == TranslateConfig(p, h2, destination)
  {
  }

  /** The record `{name: test-app, stack: heroku-20}` with destination `aws`
      translates to `test-app`, `aws` and `heroku-20`. */
  lemma TranslateConfigExample()
    ensures var r := TranslateConfig(NewQoveryProvider("fake-api-key"),
                                     map["name" := Str("test-app"), "stack" := Str("heroku-20")], "aws");
      r["app_name"] == Str("test-app") && r["destination"] == Str("aws") && r["stack"] == Str("heroku-20")
  {
  }
}
