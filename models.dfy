/**
 * The model configurations of the chat settings and the fixed list of the four
 * models the application allows (`filteredModels` in src/hooks/use-chat-settings.ts).
 */
module Models {

  /** One selectable model; its identity is its `id`. */
  datatype ModelConfig = ModelConfig(id: string, name: string, provider: string, description: string)

  /** U+212A, the only character outside ASCII whose lower-case form is an ASCII letter ('k'). */
  const KelvinSign: char := '\U{212A}'

  /**
   * The lower-case form of one character, as far as it can decide a comparison with a
   * lower-case ASCII word: ASCII upper-case letters and the Kelvin sign map to ASCII
   * lower-case letters; every other character is left as it is.
   */
  function LowerChar(c: char): char {
    if 'A' <= c <= 'Z' then (c as int + 32) as char
    else if c == KelvinSign then 'k'
    else c
  }

  /**
   * The part of `String.prototype.toLowerCase` that decides equality with a lower-case ASCII
   * word: each character lowered on its own by `LowerChar`.
   */
  function ToLower(s: string): (r: string)
    ensures |r| == |s|
    ensures forall i :: 0 <= i < |s| ==> r[i] == LowerChar(s[i])
  {
    if s == [] then [] else [LowerChar(s[0])] + ToLower(s[1..])
  }

  /** `c` is `l` itself, its ASCII upper-case form, or (for 'k') the Kelvin sign. */
  predicate SpellsLetter(c: char, l: char)
    requires 'a' <= l <= 'z'
  {
    c == l || c as int == l as int - 32 || (l == 'k' && c == KelvinSign)
  }

  /** `word` is a lower-case ASCII word. */
  predicate IsLowerWord(word: string) {
    forall i :: 0 <= i < |word| ==> 'a' <= word[i] <= 'z'
  }

  /** `s` spells the lower-case ASCII word `word`, each letter in either case. */
  predicate SpellsIgnoringCase(s: string, word: string)
    requires IsLowerWord(word)
  {
    |s| == |word| && forall i :: 0 <= i < |s| ==> SpellsLetter(s[i], word[i])
  }

  /** Lower-casing a string yields a lower-case ASCII word exactly when it spells that word in some case. */
  lemma {:induction false} ToLowerMatches(s: string, word: string)
    requires IsLowerWord(word)
    ensures ToLower(s) == word <==> SpellsIgnoringCase(s, word)
  {
    if ToLower(s) == word {
      forall i | 0 <= i < |s| ensures SpellsLetter(s[i], word[i]) {
        assert LowerChar(s[i]) == word[i];
      }
    }
    if SpellsIgnoringCase(s, word) {
      forall i | 0 <= i < |s| ensures ToLower(s)[i] == word[i] {
        assert SpellsLetter(s[i], word[i]);
      }
    }
  }

  /**
   * The two providers the application accepts, compared case-insensitively: exactly the
   * spellings of "openai" and "deepseek" with each letter in either case (and the Kelvin
   * sign standing for 'k').
   */
  function IsAllowedProvider(provider: string): (allowed: bool)
    ensures allowed <==>
              SpellsIgnoringCase(provider, "openai") || SpellsIgnoringCase(provider, "deepseek")
  {
    ToLowerMatches(provider, "openai");
    ToLowerMatches(provider, "deepseek");
    ToLower(provider) == "openai" || ToLower(provider) == "deepseek"
  }

  /** The provider spelling "OpenAI" of the allow-list is accepted. */
  lemma OpenAIAllowed()
    ensures ToLower("OpenAI") == "openai" && IsAllowedProvider("OpenAI")
  {
    var s := "OpenAI";
    var r := ToLower(s);
    assert s[0] == 'O' && s[1] == 'p' && s[2] == 'e' && s[3] == 'n' && s[4] == 'A' && s[5] == 'I';
    assert LowerChar('O') == 'o' && LowerChar('A') == 'a' && LowerChar('I') == 'i';
    assert LowerChar('p') == 'p' && LowerChar('e') == 'e' && LowerChar('n') == 'n';
    assert forall i | 0 <= i < 6 :: r[i] == "openai"[i];
  }

  /** The provider spelling "Deepseek" of the allow-list is accepted. */
  lemma DeepseekAllowed()
    ensures ToLower("Deepseek") == "deepseek" && IsAllowedProvider("Deepseek")
  {
    var s := "Deepseek";
    var r := ToLower(s);
    assert s[0] == 'D' && s[1] == 'e' && s[2] == 'e' && s[3] == 'p';
    assert s[4] == 's' && s[5] == 'e' && s[6] == 'e' && s[7] == 'k';
    assert LowerChar('D') == 'd' && LowerChar('e') == 'e' && LowerChar('p') == 'p';
    assert LowerChar('s') == 's' && LowerChar('k') == 'k';
    assert forall i | 0 <= i < 8 :: r[i] == "deepseek"[i];
  }

  /** The fixed list of allowed models, in the order the application lists them. */
  const AllowList: seq<ModelConfig> := [
    ModelConfig("openai/gpt-4o", "GPT-4o", "OpenAI", "Most capable model for complex tasks"),
    ModelConfig("openai/gpt-4o-mini", "GPT-4o Mini", "OpenAI", "Smaller and faster version of GPT-4o"),
    ModelConfig("openai/gpt-3.5-turbo", "GPT-3.5 Turbo", "OpenAI", "Fast and cost-effective model"),
    ModelConfig("deepseek/deepseek-v2", "Deepseek R1", "Deepseek", "Latest model from Deepseek AI")
  ]

  /** The first allowed model, the fallback wherever a model is missing. */
  const DefaultModel: ModelConfig := AllowList[0]
}
