# Diffusion web server: request normalisation

A Dafny model of the request layer of `webserver.py`, the small Flask server that puts
the `txt2img` engine behind `GET /diffuse/<prompt>` and `POST /diffuse`. It covers:

- **Sampler resolution** (`find_sampler_ix_byname`). The name is lower-cased. The
  engine's catalogue is then scanned in order. The first sampler whose alias list
  contains the name wins, and index 0 is the fallback. Module `SamplerResolver`:
  the specification function `Resolve` and the loop-with-`break` method
  `FindSamplerIndex`, which is proved equal to it.
- **Settings merge** (`run_diffusion` up to the engine call). A copy of the defaults
  dictionary is overwritten in place, key by key, for each override key it already has.
  Then a `sampler` override writes its resolved index into `sampler_index`. Module
  `Normalizer`: the template `DiffuseSettingsDefault`, the mutable `Dict` class (a
  Python dict), the specification functions `Overlay` and `Diffuse`, and the method
  `RunDiffusion`, which loops over the override keys.
- **Endpoints** (`diffuse_get`, `diffuse_post`). Module `Endpoints` holds the
  request rules as the functions `DiffuseGet` and `DiffusePost`. The handlers
  `ServeGet` and `ServePost` run on the template object and are proved against
  those functions. They have no `modifies` clause, so the template is provably never
  mutated.
- `PyText` gives the meaning of Python's `str.lower()` and `str.strip()` that these
  rules rely on. `Wrappers` holds `Option`, which stands for Python's `None`.

A request ends in a `Response`. `BadRequest(message)` is a 400 answer.
`Run(settings)` means the request passed every check modelled here and the engine is called with exactly these effective settings
and the first image it produces is sent back with status 200. `Fault` is an uncaught
exception, which Flask answers with a 500.

The model follows the code, including these behaviours a caller may not expect:

- A submitted prompt can be blank. POST only checks that a `prompt` key is present.
  On GET, a query-string `prompt` replaces the checked path prompt, even a blank one
  (`GetBlankQueryPromptAccepted`).
- Sampler resolution can fail. A `sampler` value in a JSON body that is not a string
  makes `str.lower()` raise (`Fault`, see `DiffuseFaultsOnlyOnBadSampler`).
- The `sampler_index` assignment adds the key when the settings lack it. The template
  always has the key, so an engine run always sees exactly the template's keys
  (`RunKeepsTemplateKeys`).
- `run_diffusion` calls the engine without taking `queue_lock`. No generation gate
  surrounds the requests modelled here.

## Model

| member | source | states |
|---|---|---|
| `PyText.Lower` | webserver.py:92 | the ASCII fold that stands for `str.lower()` keeps the length and folds each character on its own; no upper-case ASCII letter is left |
| `PyText.LowerIgnoresCase` | webserver.py:92 | two names have the same lower-cased form exactly when they differ only in letter case |
| `PyText.TrimStart` | webserver.py:139 | `lstrip` removes a prefix that is all whitespace and leaves a suffix that does not start with whitespace |
| `PyText.TrimEnd` | webserver.py:139 | `rstrip` removes a suffix that is all whitespace and leaves a prefix that does not end with whitespace |
| `PyText.IsSpace` | webserver.py:139 | the characters Python's `str.isspace()` accepts, which `strip()` removes; its use is stated by `TrimStart`, `TrimEnd` and `StripEmptyIffBlank` |
| `PyText.Strip` | webserver.py:139 | `str.strip()` as `rstrip` after `lstrip`; `StripEmptyIffBlank` states when its result is empty |
| `PyText.StripEmptyIffBlank` | webserver.py:139 | `len(s.strip()) == 0` holds exactly when every character of `s` is whitespace |
| `SamplerResolver.IndexFrom` | webserver.py:93-97 | the catalogue scan from a position; `IndexFromFirstMatch` states its result |
| `SamplerResolver.Resolve` | webserver.py:90-97 | the index a name resolves to; `ResolveFirstMatch`, `ResolveUnknownIsZero`, `ResolveInBounds` and `ResolveIgnoresCase` state its properties, and `FindSamplerIndex` is proved equal to it |
| `SamplerResolver.IndexFromFirstMatch` | webserver.py:93-96 | the scan from a position returns the first matching index at or after it, or 0 when there is none |
| `SamplerResolver.ResolveFirstMatch` | webserver.py:91-96 | a known name resolves to an in-range index whose aliases contain the lower-cased name, and no earlier entry contains it |
| `SamplerResolver.ResolveUnknownIsZero` | webserver.py:91-97 | a name no alias list contains resolves to 0; this includes every name on an empty catalogue |
| `SamplerResolver.ResolveInBounds` | webserver.py:91-97 | on a non-empty catalogue the resolved index is below the catalogue's length |
| `SamplerResolver.ResolveIgnoresCase` | webserver.py:92 | names differing only in letter case resolve to the same index |
| `SamplerResolver.FindSamplerIndex` | webserver.py:90-97 | the loop with `break` returns the smallest matching index, or 0 when nothing matches, and equals `Resolve` |
| `Normalizer.DiffuseSettingsDefault` | webserver.py:108-132 | the template's 23 parameter names and their defaults, floats kept as literal text; `TemplateShape` states the entries the rules depend on |
| `Normalizer.TemplateShape` | webserver.py:108-132 | the template has `prompt` and `sampler_index`; the default prompt is `None`, the default `sampler_index` is 0, and `sampler` is not a template key |
| `Normalizer.Overlay` | webserver.py:175-177 | the generic merge; `OverlayKeepsKeys` and `OverlayValues` state its key set and values |
| `Normalizer.Diffuse` | webserver.py:171-180 | the merge followed by the sampler step; `DiffuseKeys`, `DiffuseValues` and `DiffuseFaultsOnlyOnBadSampler` state its result, and `RunDiffusion` is proved equal to it |
| `Normalizer.OverlayKeepsKeys` | webserver.py:175-177 | the merge keeps the settings' key set; override keys the settings lack are dropped |
| `Normalizer.OverlayValues` | webserver.py:175-177 | a key in both takes the override's value; a key not overridden keeps its value |
| `Normalizer.DiffuseKeys` | webserver.py:175-180 | the effective settings have the original keys, plus `sampler_index` when a sampler name was given |
| `Normalizer.DiffuseValues` | webserver.py:175-180 | with a `sampler` override, `sampler_index` is the resolved index even if `sampler_index` was also overridden; every other key is taken from the override or else the default |
| `Normalizer.DiffuseFaultsOnlyOnBadSampler` | webserver.py:179-180 | the merge fails exactly when a `sampler` override is not a string |
| `Normalizer.Dict.Copy` | webserver.py:142 | `dict.copy()` yields a new dictionary with the same entries |
| `Normalizer.Dict.Put` | webserver.py:143 | item assignment sets the entry and adds the key if it is absent |
| `Normalizer.RunDiffusion` | webserver.py:165-180 | the in-place loop over the override keys, followed by the sampler step, yields `Diffuse` of the old entries; the dictionary ends holding the merged settings |
| `Endpoints.DiffuseGet` | webserver.py:136-147 | the GET rules; `GetRejectsBlankPrompt`, `GetPromptSource`, `GetSamplerSource` and `RunKeepsTemplateKeys` state them, and `ServeGet` is proved equal to it |
| `Endpoints.DiffusePost` | webserver.py:151-163 | the POST rules; `PostContentType`, `PostRequiresPromptKey`, `PostBlankPromptAccepted` and `RunKeepsTemplateKeys` state them, and `ServePost` is proved equal to it |
| `Endpoints.GetRejectsBlankPrompt` | webserver.py:139-140 | GET answers 400 "'Prompt' path argument is required." exactly when the path prompt is missing or only whitespace; otherwise the merge succeeds and yields `Run` |
| `Endpoints.GetPromptSource` | webserver.py:142-147 | an accepted GET runs with the path prompt, unless the query string has a `prompt`, which then wins |
| `Endpoints.GetBlankQueryPromptAccepted` | webserver.py:139-147 | a GET whose path prompt is valid but whose query string has a blank `prompt` (`/diffuse/cat?prompt=%20`) runs with the blank prompt |
| `Endpoints.GetSamplerSource` | webserver.py:145-147 | an accepted GET with a `sampler` query argument runs with `sampler_index` set to what that name resolves to |
| `Endpoints.GetSamplerAlias` | webserver.py:134-147 | `GET /diffuse/cat?sampler=Euler`, where aliases `euler` and `k_euler` first appear at index 3, runs with `sampler_index` 3 |
| `Endpoints.PostContentType` | webserver.py:152-155 | POST answers 400 "Content-Type not supported!" exactly when the header is not exactly `application/json` |
| `Endpoints.PostRequiresPromptKey` | webserver.py:157-160 | with the right header, POST answers 400 "'Prompt' field is required." exactly when the body lacks a `prompt` key |
| `Endpoints.PostBlankPromptAccepted` | webserver.py:159-163 | a POST whose `prompt` is blank runs the engine with that blank prompt, whatever else the body holds, provided any `sampler` in it is a string |
| `Endpoints.DefaultTemplateKeys` | webserver.py:108-163 | on `DiffuseSettingsDefault`, an engine run on either route sees exactly its parameter names |
| `Endpoints.RunKeepsTemplateKeys` | webserver.py:142-163 | for either route and any template that has `prompt` and `sampler_index`, an engine run sees exactly the template's parameter names |
| `Endpoints.ServeGet` | webserver.py:135-147 | the GET handler's answer is `DiffuseGet` of the template, and the template object is left unchanged; on `DiffuseSettingsDefault` an engine run sees exactly its parameter names |
| `Endpoints.ServePost` | webserver.py:150-163 | the POST handler's answer is `DiffusePost` of the template, and the template object is left unchanged; on `DiffuseSettingsDefault` an engine run sees exactly its parameter names |

## Left out

- `queue_lock`, `wrap_queued_call` and `wrap_gradio_gpu_call` (webserver.py:37-73): locking and the shared progress-state object are concurrency and external state. They also do not surround the route handlers.
- The engine call `modules.txt2img.txt2img` (webserver.py:182) is a foreign call. `Run(settings)` stands for it. An engine that returns no image makes `result_images[0]` raise, and that case is not modelled.
- PNG encoding, `BytesIO` and `send_file` (webserver.py:184-190) are I/O.
- `json.loads` (webserver.py:157) is not modelled. The POST body is taken as an already-parsed JSON object. Malformed JSON raises at line 157. A body that is not an object is not modelled either. A number or `null` raises at the `in` test on line 159. An array or string without `prompt` (`[]`, `"abc"`) gets the 400 "'Prompt' field is required." at lines 159-160. An array or string that contains `prompt` raises at `override_params["prompt"]` on line 162.
- `request.args.to_dict()` (webserver.py:145) is Flask code. The query string is taken as a `map<string, string>` holding the first value per key, and `QueryOverrides` only wraps each value as `Str`.
- The `override_params is None` default (webserver.py:171-172) is not modelled. Neither route passes `None`.
- `initialize` and `run_webserver` (webserver.py:75-88, 195-210) load the model and start the server.
- The `print` logging (webserver.py:137, 162) is not modelled. It is rich's markup print (webserver.py:11), which puts the prompt inside `[yellow]{prompt}[/]`. A prompt with an unmatched closing tag, such as `a[/]b` or `[/red]`, makes it raise on both routes, and Flask answers 500. The model does not capture that 500: it yields `Run` for such prompts.
- Floats and JSON arrays or objects are kept as opaque literal text (`Float`, `Json`). Query-string values stay strings, as in the source. Coercing them is the engine's job.
- PyText.Lower: folds ASCII letters only. Python's `str.lower()` also folds non-ASCII letters, so two non-ASCII names that Python matches may resolve differently here.
- Python iterates the overrides in insertion order. `RunDiffusion` takes the keys in any order. Each key is written at most once, so the result does not depend on the order.
