/** The Qovery provider used by the migration pipeline: it wraps one
    application's attribute map with its name and the target cloud. */
module Qovery {
  import opened Sources

  datatype QoveryProvider = QoveryProvider(apiKey: string)

  /** `NewQoveryProvider`: the key is kept verbatim (it is not used yet). */
  function NewQoveryProvider(apiKey: string): (p: QoveryProvider)
    ensures p.apiKey == apiKey
  {
    QoveryProvider(apiKey)
  }

  /** `TranslateConfig`: exactly the keys `app_name`, `destination` and `stack`,
      holding the name, the destination and the whole attribute map. */
  function TranslateConfig(p: QoveryProvider, appName: string, configMap: map<string, Value>, destination: string)
    : (r: map<string, Value>)
    ensures r.Keys == {"app_name", "destination", "stack"}
    ensures r["app_name"] == Str(appName)
    ensures r["destination"] == Str(destination)
    ensures r["stack"] == Obj(configMap)
  {
    map["app_name" := Str(appName), "destination" := Str(destination), "stack" := Obj(configMap)]
  }

  /** Nothing is lost in translation: the three inputs can be read back, so
      different inputs give different configurations, whatever the provider. */
  lemma TranslateConfigInjective(p: QoveryProvider, q: QoveryProvider,
                                 a1: string, c1: map<string, Value>, d1: string,
                                 a2: string, c2: map<string, Value>, d2: string)
    requires TranslateConfig(p, a1, c1, d1) == TranslateConfig(q, a2, c2, d2)
    ensures a1 == a2 && c1 == c2 && d1 == d2
  {
    assert TranslateConfig(p, a1, c1, d1)["app_name"] == TranslateConfig(q, a2, c2, d2)["app_name"];
    assert TranslateConfig(p, a1, c1, d1)["stack"] == TranslateConfig(q, a2, c2, d2)["stack"];
    assert TranslateConfig(p, a1, c1, d1)["destination"] == TranslateConfig(q, a2, c2, d2)["destination"];
  }
}
