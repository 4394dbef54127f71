/**
 * The model table of the chat service: every configured model is stored under
 * the key `provider/modelName` in an insertion-ordered map, as JavaScript's
 * `Map` keeps its keys.
 */
module ChatModels {
  import opened Wrappers

  datatype Provider = OpenAI | Anthropic | Groq | Gemini

  function ProviderName(p: Provider): string {
    match p
    case OpenAI => "openai"
    case Anthropic => "anthropic"
    case Groq => "groq"
    case Gemini => "gemini"
  }

  /** One configured model; the provider client built from it stands for the model itself. */
  datatype ModelConfig = ModelConfig(provider: Provider, modelName: string, apiKey: string)

  /** `${model.provider}/${model.modelName}`. */
  function ModelKey(m: ModelConfig): string {
    ProviderName(m.provider) + "/" + m.modelName
  }

  function StripPrefix(prefix: string, s: string): Option<string> {
    if |prefix| <= |s| && s[..|prefix|] == prefix then Some(s[|prefix|..]) else None
  }

  /** Reads a model key back into its provider and model name. */
  function SplitModelKey(k: string): Option<(Provider, string)> {
    if StripPrefix("openai/", k).Some? then Some((OpenAI, StripPrefix("openai/", k).value))
    else if StripPrefix("anthropic/", k).Some? then Some((Anthropic, StripPrefix("anthropic/", k).value))
    else if StripPrefix("groq/", k).Some? then Some((Groq, StripPrefix("groq/", k).value))
    else if StripPrefix("gemini/", k).Some? then Some((Gemini, StripPrefix("gemini/", k).value))
    else None
  }

  /** A key determines the provider and the model name it was built from. */
  lemma ModelKeyRoundTrip(m: ModelConfig)
    ensures SplitModelKey(ModelKey(m)) == Some((m.provider, m.modelName))
  {
    var k := ModelKey(m);
    var p := ProviderName(m.provider) + "/";
    assert k == p + m.modelName;
    assert k[..|p|] == p && k[|p|..] == m.modelName;
    // The four prefixes differ in their first character or, for the two
    // starting with 'g', in their second.
    assert k[0] == p[0];
    if m.provider.Gemini? {
      assert k[1] == 'e';
    }
  }

  lemma ModelKeyInjective(a: ModelConfig, b: ModelConfig)
    ensures ModelKey(a) == ModelKey(b) ==> a.provider == b.provider && a.modelName == b.modelName
  {
    ModelKeyRoundTrip(a);
    ModelKeyRoundTrip(b);
  }

  /** A `Map<string, client>` as its entries in insertion order. */
  type ModelTable = seq<(string, ModelConfig)>

  function Keys(t: ModelTable): (ks: seq<string>)
    ensures |ks| == |t|
  {
    seq(|t|, i requires 0 <= i < |t| => t[i].0)
  }

  predicate DistinctKeys(t: ModelTable) {
    forall i, j :: 0 <= i < j < |t| ==> t[i].0 != t[j].0
  }

  function IndexOfKey(t: ModelTable, k: string): (r: Option<nat>)
    ensures r.Some? ==> r.value < |t| && t[r.value].0 == k && forall j :: 0 <= j < r.value ==> t[j].0 != k
    ensures r.None? ==> forall j :: 0 <= j < |t| ==> t[j].0 != k
  {
    if t == [] then None
    else if t[0].0 == k then Some(0)
    else
      match IndexOfKey(t[1..], k)
      case Some(i) => Some(i + 1)
      case None => None
  }

  /** `map.get(k)`. */
  function Get(t: ModelTable, k: string): Option<ModelConfig> {
    match IndexOfKey(t, k)
    case Some(i) => Some(t[i].1)
    case None => None
  }

  /** The first entry with a key is the one `Get` finds. */
  lemma GetFirst(t: ModelTable, i: nat)
    requires i < |t| && forall j :: 0 <= j < i ==> t[j].0 != t[i].0
    ensures Get(t, t[i].0) == Some(t[i].1)
  {
  }

  /** A key is listed exactly when the table maps it to something. */
  lemma KeysGet(t: ModelTable, k: string)
    ensures k in Keys(t) <==> Get(t, k).Some?
  {
    if k in Keys(t) {
      var i :| 0 <= i < |t| && Keys(t)[i] == k;
      assert t[i].0 == k;
    }
    if Get(t, k).Some? {
      assert Keys(t)[IndexOfKey(t, k).value] == k;
    }
  }

  /** `map.set(k, v)`. */
  function Put(t: ModelTable, k: string, v: ModelConfig): ModelTable {
    match IndexOfKey(t, k)
    case Some(i) => t[i := (k, v)]
    case None => t + [(k, v)]
  }

  /**
   * Setting a key maps it to the new value and leaves every other key's value
   * alone; an existing key keeps its position, a new key goes last.
   */
  lemma PutSpec(t: ModelTable, k: string, v: ModelConfig)
    requires DistinctKeys(t)
    ensures DistinctKeys(Put(t, k, v))
    ensures Get(Put(t, k, v), k) == Some(v)
    ensures forall k' :: k' != k ==> Get(Put(t, k, v), k') == Get(t, k')
    ensures k in Keys(t) ==> Keys(Put(t, k, v)) == Keys(t)
    ensures k !in Keys(t) ==> Keys(Put(t, k, v)) == Keys(t) + [k]
  {
    var r := Put(t, k, v);
    var f := IndexOfKey(t, k);
    if f.Some? {
      GetFirst(r, f.value);
      assert Keys(t)[f.value] == k;
      assert Keys(r) == Keys(t);
    } else {
      GetFirst(r, |t|);
      assert k !in Keys(t);
      assert Keys(r) == Keys(t) + [k];
    }
    forall k' | k' != k ensures Get(r, k') == Get(t, k') {
      var g := IndexOfKey(t, k');
      if g.Some? {
        GetFirst(r, g.value);
      }
    }
    if k in Keys(t) {
      var i :| 0 <= i < |t| && Keys(t)[i] == k;
      assert f.Some?;
    }
  }

  /** The table the constructor fills, one `set` per configured model in order. */
  function BuildModels(configs: seq<ModelConfig>): ModelTable {
    if configs == [] then []
    else
      var last := configs[|configs| - 1];
      Put(BuildModels(configs[..|configs| - 1]), ModelKey(last), last)
  }

  /** The table never holds a key twice. */
  lemma {:induction false} BuildModelsDistinct(configs: seq<ModelConfig>)
    ensures DistinctKeys(BuildModels(configs))
  {
    if configs != [] {
      var last := configs[|configs| - 1];
      BuildModelsDistinct(configs[..|configs| - 1]);
      PutSpec(BuildModels(configs[..|configs| - 1]), ModelKey(last), last);
    }
  }

  /** Some configured model has key `k`. */
  predicate Configured(configs: seq<ModelConfig>, k: string) {
    exists i :: 0 <= i < |configs| && ModelKey(configs[i]) == k
  }

  lemma ConfiguredSnoc(configs: seq<ModelConfig>, k: string)
    requires configs != []
    ensures Configured(configs, k) <==>
      Configured(configs[..|configs| - 1], k) || ModelKey(configs[|configs| - 1]) == k
  {
    var init := configs[..|configs| - 1];
    if Configured(configs, k) {
      var i :| 0 <= i < |configs| && ModelKey(configs[i]) == k;
      if i < |init| {
        assert init[i] == configs[i];
      }
    }
    if Configured(init, k) {
      var i :| 0 <= i < |init| && ModelKey(init[i]) == k;
      assert configs[i] == init[i];
    }
  }

  lemma KeysPut(t: ModelTable, k: string, v: ModelConfig, x: string)
    requires DistinctKeys(t)
    ensures x in Keys(Put(t, k, v)) <==> x in Keys(t) || x == k
  {
    PutSpec(t, k, v);
  }

  /** `getAvailableModels` lists exactly the keys of the configured models. */
  lemma {:induction false} BuildModelsKeys(configs: seq<ModelConfig>, k: string)
    ensures k in Keys(BuildModels(configs)) <==> Configured(configs, k)
  {
    if configs != [] {
      var init := configs[..|configs| - 1];
      var last := configs[|configs| - 1];
      BuildModelsKeys(init, k);
      BuildModelsDistinct(init);
      KeysPut(BuildModels(init), ModelKey(last), last, k);
      ConfiguredSnoc(configs, k);
    }
  }

  /** A key maps to the last configured model with that key. */
  lemma {:induction false} BuildModelsGet(configs: seq<ModelConfig>, i: nat)
    requires i < |configs|
    requires forall j :: i < j < |configs| ==> ModelKey(configs[j]) != ModelKey(configs[i])
    ensures Get(BuildModels(configs), ModelKey(configs[i])) == Some(configs[i])
  {
    var init := configs[..|configs| - 1];
    var last := configs[|configs| - 1];
    BuildModelsDistinct(init);
    PutSpec(BuildModels(init), ModelKey(last), last);
    if i < |init| {
      assert init[i] == configs[i];
      BuildModelsGet(init, i);
    }
  }
}
