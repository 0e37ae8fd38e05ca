/**
 The request normaliser of the diffusion web server: the default settings
 template, the dictionary that a request's settings live in, and
 `run_diffusion`'s merge of caller overrides followed by sampler resolution.
 The engine call that consumes the effective settings is not modelled: a
 successful merge ends in `Run(settings)`, standing for "the engine is called
 with exactly these settings and the first image it returns is sent".
 */
module Normalizer {

  import opened SamplerResolver

  /**
   A setting's value as Python sees it. Floats and JSON arrays or objects are
   carried opaquely, by their literal text: this layer never computes with them.
   */
  datatype Value =
    | Null
    | Bool(b: bool)
    | Int(n: int)
    | Str(s: string)
    | Float(literal: string)
    | Json(text: string)

  /** A settings dictionary: parameter name to value. */
  type Settings = map<string, Value>

  const PromptKey := "prompt"
  const SamplerKey := "sampler"
  const SamplerIndexKey := "sampler_index"

  /** `diffuse_settings_default`: every parameter the engine accepts, with its default. */
  const DiffuseSettingsDefault: Settings := map[
    "prompt" := Null,
    "negative_prompt" := Str(""),
    "prompt_style" := Str(""),
    "prompt_style2" := Str(""),
    "steps" := Int(50),
    "sampler_index" := Int(0),
    "restore_faces" := Bool(false),
    "tiling" := Bool(false),
    "n_iter" := Int(1),
    "batch_size" := Int(1),
    "cfg_scale" := Float("7.5"),
    "seed" := Int(-1),
    "subseed" := Null,
    "subseed_strength" := Null,
    "seed_resize_from_h" := Null,
    "seed_resize_from_w" := Null,
    "seed_enable_extras" := Null,
    "height" := Int(512),
    "width" := Int(512),
    "enable_hr" := Bool(false),
    "denoising_strength" := Null,
    "firstphase_width" := Null,
    "firstphase_height" := Null
  ]

  /**
   In the template the prompt starts unset and sampler 0 is the default;
   `sampler` is a request-only name, not a parameter.
   */
  lemma TemplateShape()
    ensures PromptKey in DiffuseSettingsDefault && SamplerIndexKey in DiffuseSettingsDefault
    ensures DiffuseSettingsDefault[PromptKey] == Null
    ensures DiffuseSettingsDefault[SamplerIndexKey] == Int(0)
    ensures SamplerKey !in DiffuseSettingsDefault
  {
  }

  /** What handling a request ends in. */
  datatype Response =
    | BadRequest(message: string)  // status 400, plain-text body
    | Run(settings: Settings)      // the engine runs on these settings; status 200 with a PNG
    | Fault                        // an uncaught exception; Flask answers 500

  /**
   The generic merge of `run_diffusion`: each override whose key the settings
   already have replaces that setting; every other override is ignored.
   */
  function Overlay(settings: Settings, overrides: Settings): Settings {
    map k | k in settings :: if k in overrides then overrides[k] else settings[k]
  }

  /**
   `run_diffusion` up to the engine call: the generic merge, then, when the
   overrides name a sampler, its resolved index written to `sampler_index`.
   `str.lower()` on a value that is not a string raises, hence `Fault`.
   */
  function Diffuse(settings: Settings, overrides: Settings, catalogue: Catalogue): Response {
    var merged := Overlay(settings, overrides);
    if SamplerKey !in overrides then Run(merged)
    else match overrides[SamplerKey]
      case Str(name) => Run(merged[SamplerIndexKey := Int(Resolve(catalogue, name))])
      case _ => Fault
  }

  /** The merge keeps the key set: unknown override keys, `sampler` among them, are dropped. */
  lemma OverlayKeepsKeys(settings: Settings, overrides: Settings)
    ensures Overlay(settings, overrides).Keys == settings.Keys
    ensures forall k :: k in overrides && k !in settings ==> k !in Overlay(settings, overrides)
  {
  }

  /** A key both sides have takes the override's value; every other key keeps its value. */
  lemma OverlayValues(settings: Settings, overrides: Settings, k: string)
    requires k in settings
    ensures k in overrides ==> Overlay(settings, overrides)[k] == overrides[k]
    ensures k !in overrides ==> Overlay(settings, overrides)[k] == settings[k]
  {
  }

  /**
   The effective settings have the keys of the settings merged onto, plus
   `sampler_index` when a sampler name was resolved (which the template
   already has, so for it the key set never changes).
   */
  lemma DiffuseKeys(settings: Settings, overrides: Settings, catalogue: Catalogue)
    ensures var r := Diffuse(settings, overrides, catalogue);
      r.Run? ==>
        r.settings.Keys == settings.Keys + (if SamplerKey in overrides then {SamplerIndexKey} else {})
  {
  }

  /**
   A sampler name decides `sampler_index`, even if `sampler_index` was itself
   overridden; without a sampler name, overrides and defaults decide every key.
   */
  lemma DiffuseValues(settings: Settings, overrides: Settings, catalogue: Catalogue, k: string)
    requires k in settings
    ensures var r := Diffuse(settings, overrides, catalogue);
      r.Run? ==>
        if SamplerKey in overrides && k == SamplerIndexKey then
          r.settings[k] == Int(Resolve(catalogue, overrides[SamplerKey].s))
        else if k in overrides then r.settings[k] == overrides[k]
        else r.settings[k] == settings[k]
  {
  }

  /** Only a sampler override that is not a string makes the merge fail. */
  lemma DiffuseFaultsOnlyOnBadSampler(settings: Settings, overrides: Settings, catalogue: Catalogue)
    ensures Diffuse(settings, overrides, catalogue).Fault? <==>
      SamplerKey in overrides && !overrides[SamplerKey].Str?
  {
  }

  /** A Python dictionary: an object whose entries are updated in place. */
  class Dict {
    var items: Settings

    /** `source.copy()`: a new dictionary with the same entries. */
    constructor Copy(source: Dict)
      ensures items == source.items
    {
      items := source.items;
    }

    /** `d[key] = value`: sets the entry, adding the key if it is absent. */
    method Put(key: string, value: Value)
      modifies this
      ensures items == old(items)[key := value]
    {
      items := items[key := value];
    }
  }

  /**
   `run_diffusion(diffuse_settings, override_params)` up to the engine call:
   overwrites the entries of `settings` in place, one override at a time,
   then the sampler step. The dictionary afterwards holds the merged settings
   (also when the sampler step raises).
   */
  method RunDiffusion(settings: Dict, overrides: Settings, catalogue: Catalogue) returns (r: Response)
    modifies settings
    ensures r == Diffuse(old(settings.items), overrides, catalogue)
    ensures settings.items == if r.Run? then r.settings else Overlay(old(settings.items), overrides)
  {
    ghost var before := settings.items;
    var pending := overrides.Keys;
    while pending != {}
      invariant pending <= overrides.Keys
      invariant settings.items.Keys == before.Keys
      invariant forall k :: k in settings.items ==>
        settings.items[k] == if k in overrides && k !in pending then overrides[k] else before[k]
      decreases pending
    {
      var k :| k in pending;
      if k in settings.items {
        settings.Put(k, overrides[k]);
      }
      pending := pending - {k};
    }
    assert settings.items == Overlay(before, overrides);
    if SamplerKey in overrides {
      match overrides[SamplerKey]
      case Str(name) =>
        var ix := FindSamplerIndex(catalogue, name);
        settings.Put(SamplerIndexKey, Int(ix));
      case _ =>
        return Fault;
    }
    r := Run(settings.items);
  }

}
