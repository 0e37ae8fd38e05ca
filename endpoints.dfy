/**
 The two HTTP routes, `GET /diffuse/<prompt>` and `POST /diffuse`. Flask's
 request object is reduced to what the handlers read: the path prompt and the
 query arguments (first value per key) for GET; the `Content-Type` header and
 the already-parsed JSON object for POST.
 */
module Endpoints {

  import opened Wrappers
  import opened PyText
  import opened SamplerResolver
  import opened Normalizer

  const JsonContentType := "application/json"
  const PromptPathRequired := "'Prompt' path argument is required."
  const ContentTypeNotSupported := "Content-Type not supported!"
  const PromptFieldRequired := "'Prompt' field is required."

  /** `request.args.to_dict()`: every query value arrives as a string. */
  function QueryOverrides(args: map<string, string>): Settings {
    map k | k in args :: Str(args[k])
  }

  /** `diffuse_get`: reject a missing or blank path prompt, else merge onto a copy with the prompt set. */
  function DiffuseGet(defaults: Settings, prompt: Option<string>, args: map<string, string>, catalogue: Catalogue): Response {
    if prompt.None? || |Strip(prompt.value)| == 0 then BadRequest(PromptPathRequired)
    else Diffuse(defaults[PromptKey := Str(prompt.value)], QueryOverrides(args), catalogue)
  }

  /** `diffuse_post`: demand exactly `application/json` and a `prompt` key, else merge onto a copy. */
  function DiffusePost(defaults: Settings, contentType: Option<string>, body: Settings, catalogue: Catalogue): Response {
    if contentType != Some(JsonContentType) then BadRequest(ContentTypeNotSupported)
    else if PromptKey !in body then BadRequest(PromptFieldRequired)
    else Diffuse(defaults, body, catalogue)
  }

  /**
   GET answers 400 exactly when the path prompt is missing or only whitespace;
   otherwise the merge succeeds, since query values are strings and the sampler
   step cannot fail on them.
   */
  lemma GetRejectsBlankPrompt(defaults: Settings, prompt: Option<string>, args: map<string, string>, catalogue: Catalogue)
    ensures var r := DiffuseGet(defaults, prompt, args, catalogue);
      && (r.BadRequest? <==> prompt.None? || IsBlank(prompt.value))
      && (r.BadRequest? ==> r.message == PromptPathRequired)
      && r.Run? == !r.BadRequest?
  {
    if prompt.Some? {
      StripEmptyIffBlank(prompt.value);
      var settings := defaults[PromptKey := Str(prompt.value)];
      DiffuseFaultsOnlyOnBadSampler(settings, QueryOverrides(args), catalogue);
    }
  }

  /**
   An accepted GET runs on the defaults' keys, with the path prompt unless the
   query string carries its own `prompt`, which wins even when blank.
   */
  lemma GetPromptSource(defaults: Settings, prompt: string, args: map<string, string>, catalogue: Catalogue)
    requires PromptKey in defaults
    requires !IsBlank(prompt)
    ensures var r := DiffuseGet(defaults, Some(prompt), args, catalogue);
      && r.Run?
      && PromptKey in r.settings && r.settings[PromptKey] == Str(if PromptKey in args then args[PromptKey] else prompt)
  {
    var settings, overrides := defaults[PromptKey := Str(prompt)], QueryOverrides(args);
    assert DiffuseGet(defaults, Some(prompt), args, catalogue) == Diffuse(settings, overrides, catalogue) by {
      StripEmptyIffBlank(prompt);
    }
    DiffuseFaultsOnlyOnBadSampler(settings, overrides, catalogue);
    DiffuseValues(settings, overrides, catalogue, PromptKey);
    if PromptKey in args {
      assert overrides[PromptKey] == Str(args[PromptKey]);
    }
  }

  /** A blank query-string prompt replaces a valid path prompt, so GET runs with a blank prompt. */
  lemma GetBlankQueryPromptAccepted(defaults: Settings, prompt: string, blank: string, catalogue: Catalogue)
    requires PromptKey in defaults
    requires !IsBlank(prompt) && IsBlank(blank)
    ensures var r := DiffuseGet(defaults, Some(prompt), map[PromptKey := blank], catalogue);
      r.Run? && PromptKey in r.settings && r.settings[PromptKey] == Str(blank)
  {
    GetPromptSource(defaults, prompt, map[PromptKey := blank], catalogue);
  }

  /** An accepted GET with a `sampler` query argument runs the sampler that name resolves to. */
  lemma GetSamplerSource(defaults: Settings, prompt: string, args: map<string, string>, catalogue: Catalogue)
    requires !IsBlank(prompt) && SamplerKey in args
    ensures var r := DiffuseGet(defaults, Some(prompt), args, catalogue);
      r.Run? && SamplerIndexKey in r.settings && r.settings[SamplerIndexKey] == Int(Resolve(catalogue, args[SamplerKey]))
  {
    StripEmptyIffBlank(prompt);
    var overrides := QueryOverrides(args);
    assert overrides[SamplerKey] == Str(args[SamplerKey]);
  }

  /** GET `/diffuse/cat?sampler=Euler` with aliases `euler`, `k_euler` first at index 3 runs sampler 3. */
  lemma GetSamplerAlias(defaults: Settings, catalogue: Catalogue)
    requires |catalogue| > 3 && catalogue[3] == ["euler", "k_euler"]
    requires forall j :: 0 <= j < 3 ==> "euler" !in catalogue[j]
    ensures var r := DiffuseGet(defaults, Some("cat"), map[SamplerKey := "Euler"], catalogue);
      r.Run? && SamplerIndexKey in r.settings && r.settings[SamplerIndexKey] == Int(3)
  {
    assert Resolve(catalogue, "Euler") == 3 by {
      assert Lower("Euler") == "euler";
      ResolveFirstMatch(catalogue, "Euler");
    }
    assert !IsBlank("cat") by {
      assert !IsSpace("cat"[0]);
    }
    GetSamplerSource(defaults, "cat", map[SamplerKey := "Euler"], catalogue);
  }

  /** POST answers "Content-Type not supported!" exactly when the header is not `application/json`. */
  lemma PostContentType(defaults: Settings, contentType: Option<string>, body: Settings, catalogue: Catalogue)
    ensures DiffusePost(defaults, contentType, body, catalogue) == BadRequest(ContentTypeNotSupported)
      <==> contentType != Some(JsonContentType)
  {
  }

  /** With the right header, POST answers 400 exactly when the body has no `prompt` key. */
  lemma PostRequiresPromptKey(defaults: Settings, body: Settings, catalogue: Catalogue)
    ensures var r := DiffusePost(defaults, Some(JsonContentType), body, catalogue);
      (r.BadRequest? <==> PromptKey !in body)
      && (r.BadRequest? ==> r.message == PromptFieldRequired)
  {
  }

  /**
   POST does not look at the prompt's value: a blank prompt runs the engine,
   provided any `sampler` in the body is a string.
   */
  lemma PostBlankPromptAccepted(defaults: Settings, blank: string, body: Settings, catalogue: Catalogue)
    requires IsBlank(blank) && PromptKey in defaults
    requires PromptKey in body && body[PromptKey] == Str(blank)
    requires SamplerKey in body ==> body[SamplerKey].Str?
    ensures var r := DiffusePost(defaults, Some(JsonContentType), body, catalogue);
      r.Run? && PromptKey in r.settings && r.settings[PromptKey] == Str(blank)
  {
  }

  /**
   Whatever the request, an engine run sees exactly the parameters of a
   template that has `prompt` and `sampler_index`, as `DiffuseSettingsDefault` does.
   */
  lemma RunKeepsTemplateKeys(defaults: Settings, prompt: Option<string>, args: map<string, string>, contentType: Option<string>, body: Settings, catalogue: Catalogue)
    requires PromptKey in defaults && SamplerIndexKey in defaults
    ensures var r := DiffuseGet(defaults, prompt, args, catalogue);
      r.Run? ==> r.settings.Keys == defaults.Keys
    ensures var r := DiffusePost(defaults, contentType, body, catalogue);
      r.Run? ==> r.settings.Keys == defaults.Keys
  {
    if prompt.Some? {
      DiffuseKeys(defaults[PromptKey := Str(prompt.value)], QueryOverrides(args), catalogue);
    }
    DiffuseKeys(defaults, body, catalogue);
  }

  /** On `DiffuseSettingsDefault`, an engine run on either route sees exactly its parameter names. */
  lemma DefaultTemplateKeys(t: Settings, prompt: Option<string>, args: map<string, string>, contentType: Option<string>, body: Settings, catalogue: Catalogue)
    ensures t == DiffuseSettingsDefault ==>
      var r := DiffuseGet(t, prompt, args, catalogue);
      r.Run? ==> r.settings.Keys == DiffuseSettingsDefault.Keys
    ensures t == DiffuseSettingsDefault ==>
      var r := DiffusePost(t, contentType, body, catalogue);
      r.Run? ==> r.settings.Keys == DiffuseSettingsDefault.Keys
  {
    if t == DiffuseSettingsDefault {
      TemplateShape();
      RunKeepsTemplateKeys(t, prompt, args, contentType, body, catalogue);
    }
  }

  /**
   The GET handler on the server's template object: validates, copies the
   template, sets the prompt on the copy and merges into it. The template is
   outside every frame here, so it cannot change.
   */
  method ServeGet(template: Dict, prompt: Option<string>, args: map<string, string>, catalogue: Catalogue) returns (r: Response)
    ensures r == DiffuseGet(old(template.items), prompt, args, catalogue)
    ensures template.items == old(template.items)
    ensures old(template.items) == DiffuseSettingsDefault && r.Run? ==> r.settings.Keys == DiffuseSettingsDefault.Keys
  {
    DefaultTemplateKeys(template.items, prompt, args, None, map[], catalogue);
    if prompt.None? || |Strip(prompt.value)| == 0 {
      return BadRequest(PromptPathRequired);
    }
    var settings := new Dict.Copy(template);
    settings.Put(PromptKey, Str(prompt.value));
    assert settings.items == template.items[PromptKey := Str(prompt.value)];
    r := RunDiffusion(settings, QueryOverrides(args), catalogue);
  }

  /** The POST handler on the server's template object: validates, then merges into a copy. */
  method ServePost(template: Dict, contentType: Option<string>, body: Settings, catalogue: Catalogue) returns (r: Response)
    ensures r == DiffusePost(old(template.items), contentType, body, catalogue)
    ensures template.items == old(template.items)
    ensures old(template.items) == DiffuseSettingsDefault && r.Run? ==> r.settings.Keys == DiffuseSettingsDefault.Keys
  {
    DefaultTemplateKeys(template.items, None, map[], contentType, body, catalogue);
    if contentType != Some(JsonContentType) {
      return BadRequest(ContentTypeNotSupported);
    }
    if PromptKey !in body {
      return BadRequest(PromptFieldRequired);
    }
    var settings := new Dict.Copy(template);
    r := RunDiffusion(settings, body, catalogue);
  }

}
