/** The toasts the settings hook shows, recorded as values instead of being rendered. */
module Notifications {
  import opened Models

  /** One toast: its title, its description, and whether it uses the destructive style. */
  datatype Toast = Toast(title: string, description: string, destructive: bool)

  /** `toUpperCase` of one character, for ASCII letters; every other character is left as it is. */
  function UpperChar(c: char): char {
    if 'a' <= c <= 'z' then (c as int - 32) as char else c
  }

  /** The string with its first character upper-cased (`s.charAt(0).toUpperCase() + s.slice(1)`). */
  function Capitalize(s: string): (r: string)
    ensures |r| == |s|
    ensures s != [] ==> r[0] == UpperChar(s[0]) && r[1..] == s[1..]
  {
    if s == [] then [] else [UpperChar(s[0])] + s[1..]
  }

  /** A capitalized provider names the same provider, compared case-insensitively. */
  lemma CapitalizeNamesSameProvider(s: string)
    ensures ToLower(Capitalize(s)) == ToLower(s)
    ensures IsAllowedProvider(Capitalize(s)) <==> IsAllowedProvider(s)
  {
    var c := Capitalize(s);
    forall i | 0 <= i < |s| ensures LowerChar(c[i]) == LowerChar(s[i]) {
      if i > 0 {
        assert c[i] == c[1..][i - 1] == s[1..][i - 1] == s[i];
      }
    }
    assert ToLower(c) == ToLower(s);
  }

  const DuplicateModel: Toast :=
    Toast("Model already exists", "A model with this ID already exists in your list.", true)

  const InvalidProvider: Toast :=
    Toast("Invalid model provider", "Only OpenAI and Deepseek models are allowed.", true)

  const ModelRemoved: Toast :=
    Toast("Model Removed", "The selected model has been removed from the available models list.", false)

  /** The confirmation of an add: not destructive, and its description opens with the model's name. */
  function ModelAdded(m: ModelConfig): (t: Toast)
    ensures t.title == "Model Added" && !t.destructive
    ensures |m.name| <= |t.description| && t.description[..|m.name|] == m.name
  {
    Toast("Model Added", m.name + " has been added to your available models.", false)
  }

  /** The notice that the active model moved: not destructive, and it names the new model. */
  function ActiveModelChanged(m: ModelConfig): (t: Toast)
    ensures t.title == "Active Model Changed" && !t.destructive
    ensures |t.description| == 37 + |m.name| && t.description[36..36 + |m.name|] == m.name
  {
    var prefix := "Active model was removed. Now using ";
    var d := prefix + m.name + ".";
    assert |prefix| == 36 && d[|prefix|..|prefix| + |m.name|] == m.name;
    Toast("Active Model Changed", d, false)
  }

  /** The confirmation of a new API key: its title opens with the capitalized provider. */
  function ApiKeyUpdated(provider: string): (t: Toast)
    ensures !t.destructive
    ensures |provider| <= |t.title| && t.title[..|provider|] == Capitalize(provider)
    ensures t.title[|provider|..] == " API Key Updated"
  {
    Toast(Capitalize(provider) + " API Key Updated", "Your " + provider + " API key has been saved.", false)
  }

  /** The confirmation of a base URL: its title opens with the capitalized provider. */
  function BaseUrlUpdated(provider: string): (t: Toast)
    ensures !t.destructive
    ensures |provider| <= |t.title| && t.title[..|provider|] == Capitalize(provider)
    ensures t.title[|provider|..] == " Base URL Updated"
  {
    Toast(Capitalize(provider) + " Base URL Updated",
          "Your " + provider + " base URL has been saved to OpenRouter.", false)
  }

  /** Exactly the two refusals of `addModel` use the destructive style. */
  lemma OnlyRefusalsAreDestructive()
    ensures DuplicateModel.destructive && InvalidProvider.destructive
    ensures !ModelRemoved.destructive
    ensures forall m :: !ModelAdded(m).destructive && !ActiveModelChanged(m).destructive
    ensures forall p :: !ApiKeyUpdated(p).destructive && !BaseUrlUpdated(p).destructive
  {
  }
}
