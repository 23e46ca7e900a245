/**
 * api_clients/__init__.py: the factory that maps a platform name to its
 * adapter. The lookup is an exact, case-sensitive match on the name; any
 * other name yields no client.
 */
module ClientFactory {
  import opened Wrappers
  import opened ConfigManager

  /** The five adapter classes of the mapping. */
  datatype AdapterKind = OpenAI | Anthropic | Baidu | Zhipu | Alibaba

  /** The key under which each adapter is registered. */
  function KindName(k: AdapterKind): (n: string) {
    match k
    case OpenAI => "openai"
    case Anthropic => "anthropic"
    case Baidu => "baidu"
    case Zhipu => "zhipu"
    case Alibaba => "alibaba"
  }

  /** `client_mapping.get(platform_name)`. */
  function ClientMapping(name: string): (k: Option<AdapterKind>)
    ensures k.Some? ==> KindName(k.value) == name
  {
    if name == "openai" then Some(OpenAI)
    else if name == "anthropic" then Some(Anthropic)
    else if name == "baidu" then Some(Baidu)
    else if name == "zhipu" then Some(Zhipu)
    else if name == "alibaba" then Some(Alibaba)
    else None
  }

  /** The mapping and its keys are inverse: every adapter is found under its key, and only there. */
  lemma MappingRoundTrip(k: AdapterKind, name: string)
    ensures ClientMapping(KindName(k)) == Some(k)
    ensures ClientMapping(name) == Some(k) <==> name == KindName(k)
  {
  }

  /** Names outside the five keys, including other spellings of a key, have no adapter. */
  lemma UnknownNameNoAdapter(name: string)
    requires name !in {"openai", "anthropic", "baidu", "zhipu", "alibaba"}
    ensures ClientMapping(name).None?
  {
  }

  /**
   * An adapter instance: its class and the constructor's state, the platform
   * name (taken from the config, `BaseAPIClient.__init__`) and the config.
   */
  datatype Client = Client(kind: AdapterKind, platformName: string, config: PlatformConfig)

  /** `create_client`: the registered adapter built over the config, or `None`. */
  function CreateClient(name: string, config: PlatformConfig): (c: Option<Client>)
    ensures c.Some? <==> ClientMapping(name).Some?
    ensures c.Some? ==> c.value.kind == ClientMapping(name).value
    ensures c.Some? ==> c.value.platformName == config.name && c.value.config == config
  {
    match ClientMapping(name)
    case None => None
    case Some(k) => Some(Client(k, config.name, config))
  }

  /** The client built for a registered key is of the adapter registered there. */
  lemma CreateClientKind(k: AdapterKind, config: PlatformConfig)
    ensures CreateClient(KindName(k), config) == Some(Client(k, config.name, config))
  {
    MappingRoundTrip(k, KindName(k));
  }
}
