/**
 * The settings store of `src/stores/setting/setting.ts`: four settings that
 * start at their defaults and are updated by merging a partial record over
 * them (`Object.assign`).  A partial record may leave a field out, or list it
 * with any value including `undefined`, so every setting may end up
 * undefined; `None` stands for `undefined`.
 */
module Setting {
  import opened Wrappers

  datatype Settings = Settings(
    model: Option<string>,
    apiKey: Option<string>,
    stream: Option<bool>,
    temperature: Option<real>)

  /** One field of a partial record: left out, or listed with a value (possibly `undefined`). */
  datatype Update<T> = Keep | Assign(value: Option<T>)

  /** `Partial<Settings>`. */
  datatype PartialSettings = PartialSettings(
    model: Update<string>,
    apiKey: Update<string>,
    stream: Update<bool>,
    temperature: Update<real>)

  const DefaultSettings: Settings := Settings(Some("deepseek-ai/DeepSeek-R1"), Some(""), Some(false), Some(0.5))

  /** The empty partial record `{}`. */
  const NoChanges: PartialSettings := PartialSettings(Keep, Keep, Keep, Keep)

  /** The partial record listing every field of `s`. */
  function Everything(s: Settings): PartialSettings
  {
    PartialSettings(Assign(s.model), Assign(s.apiKey), Assign(s.stream), Assign(s.temperature))
  }

  function ApplyField<T>(current: Option<T>, u: Update<T>): Option<T>
  {
    match u
    case Keep => current
    case Assign(v) => v
  }

  /** `Object.assign(settings, p)` on the value: each listed field is copied over. */
  function Merge(s: Settings, p: PartialSettings): (r: Settings)
    ensures p.model.Keep? ==> r.model == s.model
    ensures p.model.Assign? ==> r.model == p.model.value
    ensures p.apiKey.Keep? ==> r.apiKey == s.apiKey
    ensures p.apiKey.Assign? ==> r.apiKey == p.apiKey.value
    ensures p.stream.Keep? ==> r.stream == s.stream
    ensures p.stream.Assign? ==> r.stream == p.stream.value
    ensures p.temperature.Keep? ==> r.temperature == s.temperature
    ensures p.temperature.Assign? ==> r.temperature == p.temperature.value
  {
    Settings(ApplyField(s.model, p.model), ApplyField(s.apiKey, p.apiKey),
             ApplyField(s.stream, p.stream), ApplyField(s.temperature, p.temperature))
  }

  /** Two partial records applied in turn: a field listed in the second wins. */
  function Then(p: PartialSettings, q: PartialSettings): PartialSettings
  {
    PartialSettings(
      if q.model.Assign? then q.model else p.model,
      if q.apiKey.Assign? then q.apiKey else p.apiKey,
      if q.stream.Assign? then q.stream else p.stream,
      if q.temperature.Assign? then q.temperature else p.temperature)
  }

  /** Merging the same record twice is merging it once. */
  lemma MergeIdempotent(s: Settings, p: PartialSettings)
    ensures Merge(Merge(s, p), p) == Merge(s, p)
  {
  }

  /** The empty record changes nothing. */
  lemma MergeNoChanges(s: Settings)
    ensures Merge(s, NoChanges) == s
  {
  }

  /** A record listing every field replaces the settings outright. */
  lemma MergeEverything(s: Settings, t: Settings)
    ensures Merge(s, Everything(t)) == t
  {
  }

  /** Two merges in a row are one merge of the combined record. */
  lemma MergeThen(s: Settings, p: PartialSettings, q: PartialSettings)
    ensures Merge(Merge(s, p), q) == Merge(s, Then(p, q))
  {
  }

  class SettingStore {
    var settings: Settings

    /** The store starts from a copy of the defaults. */
    constructor ()
      ensures settings == DefaultSettings
    {
      settings := DefaultSettings;
    }

    /** `updatesSettings`: the listed fields are overwritten in place, one by one. */
    method UpdatesSettings(newSettings: PartialSettings)
      modifies this
      ensures settings == Merge(old(settings), newSettings)
    {
      if newSettings.model.Assign? {
        settings := settings.(model := newSettings.model.value);
      }
      if newSettings.apiKey.Assign? {
        settings := settings.(apiKey := newSettings.apiKey.value);
      }
      if newSettings.stream.Assign? {
        settings := settings.(stream := newSettings.stream.value);
      }
      if newSettings.temperature.Assign? {
        settings := settings.(temperature := newSettings.temperature.value);
      }
    }
  }
}
