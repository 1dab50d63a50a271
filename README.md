# Chat settings: model catalog and settings reconciliation

A Dafny model of the settings hook of a browser chat client
(`src/hooks/use-chat-settings.ts`). The hook owns four pieces of state:

- the **catalog** of selectable model configurations (`availableModels`), an ordered sequence;
- the **active model** (`activeModel`);
- the two keys it keeps in the browser's **local storage**, `activeModel` and `availableModels`;
- local copies of the **credential maps** (provider → API key, provider → base URL) held by an
  external credential service.

The hook also holds a fixed **allow-list** of four models: three OpenAI models and one Deepseek model.

The model has one module per concern:

- `Models`: the `ModelConfig` record, the lower-casing used for provider comparisons, the
  accepted providers and the allow-list.
- `Filtering`: an order-preserving `Filter`, the same as `Array.prototype.filter`, with its laws.
- `Catalog`: the pure computations inside the hook's operations. These are `some` by id,
  `find` of the first other entry, `filter` by id or by provider, and the append of `addModel`.
- `Storage`: the two storage keys. Each one is `Absent`, `Malformed` (the stored text is rejected
  by `JSON.parse`) or `Parsed(value)`.
- `Reconcile`: what loading adopts from storage.
- `Notifications`: toasts as `(title, description, destructive)` values.
- `Credentials`: the credential service as two maps with set and get.
- `Settings`: the hook itself, as the class `ChatSettings`. Its methods change the state, write
  storage and add to a log of toasts.

Persistence (the effects at lines 91–97) works like this in the model. Every operation that calls
one of the hook's state setters ends with the matching storage key holding the new value. An
operation that calls no setter leaves storage as it was. A refused `addModel` is one such operation.

`GetApiKey` and `GetBaseUrl` are pass-through reads of the service's maps. `GetAllApiKeys` and
`GetAllBaseUrls` return the hook's cached copies.

Some behaviour one might expect of the hook is not what the code does:

- One might expect the catalog never to hold two entries with the same id. The code does not guarantee it. Loading does not de-duplicate a saved catalog.
  The model proves that adding, removing and loading keep ids unique when they were unique before
  (`TryAdd`, `RemoveKeepsUniqueIds`, `LoadCatalogKeepsUniqueIds`), rather than as an invariant.
- One might expect the active model always to be a catalog entry. The code does not guarantee it. Loading checks it against the
  allow-list, not the loaded catalog (`ActiveMayLieOutsideCatalog`). `setActiveModel` does not
  check it. When no other entry is left, `removeModel` falls back to the first allowed model,
  which need not be in the catalog and may even carry the removed id (`FallbackMayCarryRemovedId`).
- When `JSON.parse` rejects a saved catalog, the load effect (lines 70–88) keeps the in-memory
  default and does not rewrite the key itself. The load effect writes the allow-list back only
  when a parsed catalog has no entry with an accepted provider (lines 79–84). The program as a
  whole still rewrites the key on first mount, through the persistence effect at lines 95–97;
  the model leaves that run out (see the React lifecycle line under "## Left out").
- Adding a model and then removing its id restores the catalog exactly, as a sequence, not just
  as a set of ids (`AddThenRemove`).

## Model

| member | source | states |
|---|---|---|
| `Models.ToLower` | src/hooks/use-chat-settings.ts:75 | lower-casing maps each character on its own and keeps the length |
| `Models.IsAllowedProvider` | src/hooks/use-chat-settings.ts:174 | a provider is accepted exactly when it spells "openai" or "deepseek" with each letter in either case, where U+212A KELVIN SIGN also counts as 'k' (both directions) |
| `Catalog.AllowListIsValid` | src/hooks/use-chat-settings.ts:7-32 | the four allowed models have distinct ids and accepted providers |
| `Catalog.HasId` | src/hooks/use-chat-settings.ts:164 | `some` by id is true exactly when some index holds an entry with that id |
| `Catalog.WithoutId` | src/hooks/use-chat-settings.ts:153 | the filtered catalog holds exactly the old entries whose id differs, and no entry has the removed id |
| `Catalog.RemoveAbsent` | src/hooks/use-chat-settings.ts:153 | removing an id no entry carries leaves the catalog unchanged |
| `Catalog.RemoveIdempotent` | src/hooks/use-chat-settings.ts:153 | removing the same id twice equals removing it once |
| `Catalog.RemoveKeepsOrder` | src/hooks/use-chat-settings.ts:153 | the remaining entries are a subsequence of the old catalog (relative order kept) |
| `Catalog.RemoveKeepsUniqueIds` | src/hooks/use-chat-settings.ts:153 | removal keeps ids unique |
| `Catalog.AllowedOnly` | src/hooks/use-chat-settings.ts:74-76 | the provider filter keeps exactly the entries with an accepted provider |
| `Catalog.FirstOther` | src/hooks/use-chat-settings.ts:144 | `find` returns nothing exactly when every entry has the removed id, otherwise an entry with another id |
| `Catalog.FirstOtherIsFirstRemaining` | src/hooks/use-chat-settings.ts:144-153 | the entry `find` picks is the first entry of the catalog after removal, and there is none exactly when that catalog is empty |
| `Catalog.Reassign` | src/hooks/use-chat-settings.ts:142-145 | an active model with another id is kept. Removing the active id moves it to the first entry of the post-removal catalog. With no remaining entry it moves to the first allowed model |
| `Catalog.TryAdd` | src/hooks/use-chat-settings.ts:162-185 | refused as a duplicate exactly when the id is present (checked first), and for its provider exactly when the id is new and the provider not accepted. Otherwise it produces the old catalog followed by the model, keeping unique ids and accepted providers |
| `Catalog.AddThenRemove` | src/hooks/use-chat-settings.ts:153-184 | a successful add followed by removing the added id gives back the original catalog |
| `Reconcile.LoadActive` | src/hooks/use-chat-settings.ts:42-59 | only a parsed value is adopted, and what is adopted has an allowed id. The saved model is adopted as stored exactly when its id is allowed, otherwise the first allowed model |
| `Reconcile.LoadCatalog` | src/hooks/use-chat-settings.ts:70-88 | only a parsed value is adopted, and what is adopted is non-empty with accepted providers. It is the provider-filtered saved catalog exactly when that is non-empty, otherwise the allow-list |
| `Reconcile.LoadCatalogKeepsValidCatalog` | src/hooks/use-chat-settings.ts:74-80 | a non-empty saved catalog whose providers are all accepted is adopted exactly as stored |
| `Reconcile.LoadCatalogKeepsOrder` | src/hooks/use-chat-settings.ts:74-84 | the loaded catalog is a subsequence of the saved one, or the allow-list |
| `Reconcile.LoadCatalogKeepsUniqueIds` | src/hooks/use-chat-settings.ts:74-84 | a saved catalog with unique ids loads to one with unique ids |
| `Reconcile.RefusedProviderLoadsAllowList` | src/hooks/use-chat-settings.ts:74-83 | a saved catalog holding only an "anthropic" model loads as the allow-list |
| `Catalog.FallbackMayCarryRemovedId` | src/hooks/use-chat-settings.ts:142-153 | removing the default model from a catalog holding only it leaves the catalog empty and the default model, which carries the removed id, active |
| `Reconcile.ActiveMayLieOutsideCatalog` | src/hooks/use-chat-settings.ts:41-89 | a saved active model and a saved catalog can both be adopted while the active model is not in the catalog |
| `Notifications.Capitalize` | src/hooks/use-chat-settings.ts:104 | the title's provider has its first character upper-cased and the rest unchanged |
| `Notifications.CapitalizeNamesSameProvider` | src/hooks/use-chat-settings.ts:115 | the capitalized provider equals the original after lower-casing, so it is accepted exactly when the original is |
| `Notifications.ModelAdded` | src/hooks/use-chat-settings.ts:187-190 | the "Model Added" toast is not destructive and its description opens with the model's name |
| `Notifications.ActiveModelChanged` | src/hooks/use-chat-settings.ts:146-149 | the "Active Model Changed" toast is not destructive and its description contains the new model's name |
| `Notifications.ApiKeyUpdated` | src/hooks/use-chat-settings.ts:103-106 | the toast is not destructive; its title is the capitalized provider followed by " API Key Updated" |
| `Notifications.BaseUrlUpdated` | src/hooks/use-chat-settings.ts:114-117 | the toast is not destructive; its title is the capitalized provider followed by " Base URL Updated" |
| `Notifications.OnlyRefusalsAreDestructive` | src/hooks/use-chat-settings.ts:146-190 | the duplicate-id and invalid-provider toasts are destructive; "Model Removed" and every other toast are not |
| `Credentials.CredentialService.GetApiKey` | src/hooks/use-chat-settings.ts:121 | the key stored for the provider, or the empty string when none is |
| `Credentials.CredentialService.GetBaseUrl` | src/hooks/use-chat-settings.ts:125 | the base URL stored for the provider, or the empty string when none is |
| `Credentials.CredentialService.SetApiKey` | src/hooks/use-chat-settings.ts:100 | the key is readable for that provider afterwards; other providers' keys and all base URLs are unchanged |
| `Credentials.CredentialService.SetBaseUrl` | src/hooks/use-chat-settings.ts:111 | the URL is readable for that provider afterwards; other providers' URLs and all keys are unchanged |
| `Settings.ChatSettings.constructor` | src/hooks/use-chat-settings.ts:35-39 | before loading: the allow-list, its first model, empty credential maps, no toasts |
| `Settings.ChatSettings.Load` | src/hooks/use-chat-settings.ts:41-89 | active model and catalog are what reconciliation adopts, or unchanged. A key is rewritten exactly when it held a parsed value. Credential maps are copied from the service. No toast is shown |
| `Settings.ChatSettings.SetApiKey` | src/hooks/use-chat-settings.ts:99-107 | the service holds the key for the provider, the cached map is refreshed, and one toast names the capitalized provider |
| `Settings.ChatSettings.SetBaseUrl` | src/hooks/use-chat-settings.ts:109-118 | whatever URL is passed, the provider's base URL becomes https://openrouter.ai/api/v1, and one toast is shown |
| `Settings.ChatSettings.GetApiKey` | src/hooks/use-chat-settings.ts:120-122 | passes through to the service: the provider's stored key, or the empty string |
| `Settings.ChatSettings.GetBaseUrl` | src/hooks/use-chat-settings.ts:124-126 | passes through to the service: the provider's stored base URL, or the empty string |
| `Settings.ChatSettings.GetAllApiKeys` | src/hooks/use-chat-settings.ts:128-130 | the hook's cached key map, which `Load` and `SetApiKey` set equal to the service's map |
| `Settings.ChatSettings.GetAllBaseUrls` | src/hooks/use-chat-settings.ts:132-134 | the hook's cached base-URL map, which `Load` and `SetBaseUrl` set equal to the service's map |
| `Settings.ChatSettings.SetActiveModel` | src/hooks/use-chat-settings.ts:136-138 | the active model is replaced without any check and saved; nothing else changes |
| `Settings.ChatSettings.RemoveModel` | src/hooks/use-chat-settings.ts:140-160 | the catalog loses every entry with the id. The active model is reassigned only when it carried the id. "Active Model Changed" comes before the unconditional "Model Removed". Storage follows, unique ids and accepted providers are kept |
| `Settings.ChatSettings.AddModel` | src/hooks/use-chat-settings.ts:162-191 | a duplicate id, then a refused provider, each leave catalog and storage unchanged with one destructive toast. Otherwise the model is appended and saved with one "Model Added" toast, keeping unique ids and accepted providers |
| `Settings.RemoveActiveScenario` | src/hooks/use-chat-settings.ts:140-160 | with catalog [GPT-4o, Deepseek R1] and GPT-4o active, removing GPT-4o makes Deepseek R1 active and leaves [Deepseek R1]. It shows "Active Model Changed" and then "Model Removed" |

## Left out

- `src/contexts/chat-context.tsx` is not part of this model. It only gathers the fields of two hooks into one object and throws when used outside its provider.
- The React lifecycle is left out. This includes the scheduling of `useState` and `useEffect`, and the extra run of the persistence effects (lines 91–97) on first mount, which writes the initial defaults to both keys. So the model's "an unreadable key is not rewritten" holds of the load effect only. Also left out: React skips an update when the new value is the same object, and the model writes a key whenever a setter is called.
- `localStorage`, `JSON.parse` and `JSON.stringify` are abstracted as the `Stored` datatype, and a stored value is assumed to read back as the value written. Left out: an empty stored string, which the code treats like a missing key, and parsed JSON that is not shaped like a model or a list of models. Some such values make the code throw and fall into the unreadable case; others, such as a number, give an undefined id.
- `console.error` logging of parse failures is not modelled.
- The credential service (`chatService`) is not part of this model. It is modelled as two maps with set and get, where a missing provider reads as the empty string. Its own persistence and any case handling of provider names are not modelled.
- `Models.LowerChar`: maps only ASCII upper-case letters and U+212A KELVIN SIGN. For deciding equality with the lower-case ASCII words "openai" and "deepseek" this matches `toLowerCase`; it is not a full Unicode lower-casing.
- `Notifications.Capitalize`: upper-cases only ASCII letters. Full Unicode `toUpperCase` also maps other characters, some of them to two characters. Characters are Unicode scalar values, not UTF-16 code units.
- Toasts are recorded in a log rather than rendered.
- The chat-session logic (`useChatLogic`, `sendMessage`, chats) is external to this hook and is left out.
