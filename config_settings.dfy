/** The configuration form: `handleChange` writes one input's value into
    the configuration object, converting the numeric fields with `Number`. */
module Config {

  /** A configuration value: the raw text of an input, or the number `Number(text)`
      gives. The number type `N` and the conversion are the runtime's. */
  datatype Field<N> = Text(text: string) | Number(number: N)

  /** The configuration object, field name to value; an object spread with a
      computed key `[name]` adds that key if it is new. */
  type Settings<N> = map<string, Field<N>>

  datatype FieldType = StringType | NumberType

  /** The `ConfigSettings` interface: each field with its declared type. */
  const Interface: map<string, FieldType> := map[
    "outputDir" := StringType,
    "rateLimit" := NumberType,
    "maxConcurrentRequests" := NumberType,
    "sitemapOutput" := StringType,
    "summaryFile" := StringType,
    "maxRetries" := NumberType,
    "retryDelay" := NumberType,
    "crawlTimeout" := NumberType
  ]

  /** The `numericFields` list of `handleChange`. */
  const NumericFields: seq<string> := ["rateLimit", "maxConcurrentRequests", "maxRetries", "retryDelay", "crawlTimeout"]

  /** `numericFields` names exactly the number-typed fields of the interface. */
  lemma NumericFieldsAreNumberTyped()
    ensures forall f :: f in NumericFields <==> f in Interface && Interface[f] == NumberType
  {
    forall f ensures f in NumericFields <==> f in Interface && Interface[f] == NumberType {
      if f in Interface && Interface[f] == NumberType {
        assert f != "outputDir" && f != "sitemapOutput" && f != "summaryFile";
      }
    }
  }

  /** `handleChange`: the config is copied with the event's field overridden.
      Only the named field changes; a numeric field receives `Number(value)`,
      any other the raw text; no value is range-checked. */
  function HandleChange<N>(config: Settings<N>, name: string, value: string, toNumber: string -> N): (r: Settings<N>)
    ensures r.Keys == config.Keys + {name}
    ensures r[name] == if name in NumericFields then Number(toNumber(value)) else Text(value)
    ensures forall k :: k in config && k != name ==> r[k] == config[k]
  {
    config[name := if name in NumericFields then Number(toNumber(value)) else Text(value)]
  }

  /** Applying the same change twice gives the same configuration as applying it once. */
  lemma ChangeIdempotent<N>(config: Settings<N>, name: string, value: string, toNumber: string -> N)
    ensures HandleChange(HandleChange(config, name, value, toNumber), name, value, toNumber)
            == HandleChange(config, name, value, toNumber)
  {
  }

  /** A configuration shaped like the interface: exactly its fields, numbers
      in the number-typed ones and text in the others. */
  predicate WellTyped<N>(config: Settings<N>) {
    && config.Keys == Interface.Keys
    && forall k :: k in config ==> (config[k].Number? <==> Interface[k] == NumberType)
  }

  /** A change from one of the form's inputs keeps the configuration shaped
      like the interface; a change under any other name adds a key and does not. */
  lemma ChangeKeepsShape<N>(config: Settings<N>, name: string, value: string, toNumber: string -> N)
    requires WellTyped(config)
    ensures WellTyped(HandleChange(config, name, value, toNumber)) <==> name in Interface
  {
    NumericFieldsAreNumberTyped();
    var r := HandleChange(config, name, value, toNumber);
    if name !in Interface {
      assert name in r.Keys && name !in Interface.Keys;
    }
  }
}
