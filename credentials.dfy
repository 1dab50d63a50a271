/**
 * The credential collaborator the settings hook delegates to: per-provider API keys and
 * base URLs. Only the set and get behaviour the hook relies on is modelled.
 */
module Credentials {

  /** The value stored under `key`, or the empty string when there is none. */
  function Lookup(m: map<string, string>, key: string): string {
    if key in m then m[key] else ""
  }

  class CredentialService {
    var apiKeys: map<string, string>
    var baseUrls: map<string, string>

    constructor (apiKeys: map<string, string>, baseUrls: map<string, string>)
      ensures this.apiKeys == apiKeys && this.baseUrls == baseUrls
    {
      this.apiKeys := apiKeys;
      this.baseUrls := baseUrls;
    }

    /** The value stored for `provider`, or the empty string when none is. */
    function GetApiKey(provider: string): (value: string)
      reads this
      ensures provider in apiKeys ==> value == apiKeys[provider]
      ensures provider !in apiKeys ==> value == ""
    {
      Lookup(apiKeys, provider)
    }

    /** The value stored for `provider`, or the empty string when none is. */
    function GetBaseUrl(provider: string): (value: string)
      reads this
      ensures provider in baseUrls ==> value == baseUrls[provider]
      ensures provider !in baseUrls ==> value == ""
    {
      Lookup(baseUrls, provider)
    }

    /** Stores `key` for `provider`; the keys of other providers and all base URLs stay. */
    method SetApiKey(key: string, provider: string)
      modifies this
      ensures apiKeys == old(apiKeys)[provider := key] && baseUrls == old(baseUrls)
      ensures GetApiKey(provider) == key
      ensures forall p :: p != provider ==> GetApiKey(p) == old(GetApiKey(p))
    {
      apiKeys := apiKeys[provider := key];
    }

    /** Stores `url` for `provider`; the URLs of other providers and all API keys stay. */
    method SetBaseUrl(url: string, provider: string)
      modifies this
      ensures baseUrls == old(baseUrls)[provider := url] && apiKeys == old(apiKeys)
      ensures GetBaseUrl(provider) == url
      ensures forall p :: p != provider ==> GetBaseUrl(p) == old(GetBaseUrl(p))
    {
      baseUrls := baseUrls[provider := url];
    }
  }
}
