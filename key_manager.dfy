/** `KeyManager` (key_manager.py): the key file of each service and loading a key from it. The
    files of the current directory are a map from file name to contents. */
module KeyManager {
  import opened Wrappers
  import opened Text

  /** `KeyManager.DEFAULT_KEYS` */
  const DEFAULT_KEYS: map<string, string> := map[
    "openai" := "openai_key.txt",
    "anthropic" := "anthropic_key.txt",
    "google" := "google_key.txt",
    "x" := "x_key.txt",
    "perplexity" := "perplexity_key.txt"
  ]

  /** The files of the working directory: name to contents. */
  type Files = map<string, string>

  function UnknownService(service: string): string
  {
    "Unknown service: " + service
  }

  function MissingKeyFile(keyFile: string): string
  {
    "API key file not found: " + keyFile + ". Please ensure you have the " + keyFile
      + " file in the current directory."
  }

  /** `KeyManager.get_key_path(service)` */
  function GetKeyPath(service: string): (r: Result<string>)
    ensures r.Success? <==> service in DEFAULT_KEYS
    ensures r.Success? ==> r.value == DEFAULT_KEYS[service]
    ensures r.Failure? ==> r.error == UnknownService(service)
  {
    if service in DEFAULT_KEYS then Success(DEFAULT_KEYS[service]) else Failure(UnknownService(service))
  }

  /** `KeyManager.load_key(service)`: the unknown-service check comes before any file is read, and
      the key is the file's contents without surrounding whitespace. */
  function LoadKey(service: string, files: Files): (r: Result<string>)
    ensures service !in DEFAULT_KEYS ==> r == Failure(UnknownService(service))
    ensures service in DEFAULT_KEYS && DEFAULT_KEYS[service] !in files
            ==> r == Failure(MissingKeyFile(DEFAULT_KEYS[service]))
    ensures r.Success? <==> service in DEFAULT_KEYS && DEFAULT_KEYS[service] in files
    ensures r.Success? ==> r.value == Strip(files[DEFAULT_KEYS[service]])
    ensures r.Success? ==> |r.value| == 0 || (!IsSpace(r.value[0]) && !IsSpace(r.value[|r.value| - 1]))
  {
    if service !in DEFAULT_KEYS then Failure(UnknownService(service))
    else
      var keyFile := DEFAULT_KEYS[service];
      if keyFile !in files then Failure(MissingKeyFile(keyFile))
      else Success(Strip(files[keyFile]))
  }

  /** Which files exist never matters for an unknown service. */
  lemma UnknownServiceReadsNoFile(service: string, files1: Files, files2: Files)
    requires service !in DEFAULT_KEYS
    ensures LoadKey(service, files1) == LoadKey(service, files2)
    ensures GetKeyPath(service).Failure?
  {
  }

  /** The service names the five adapters are constructed with. */
  const ADAPTER_SERVICES: seq<string> := ["openai", "anthropic", "google", "x", "perplexity"]

  /** Every adapter's service has a key file, and they are five different files. */
  lemma AdapterServicesHaveKeys()
    ensures forall i | 0 <= i < |ADAPTER_SERVICES| :: GetKeyPath(ADAPTER_SERVICES[i]).Success?
    ensures forall i, j | 0 <= i < j < |ADAPTER_SERVICES| ::
              DEFAULT_KEYS[ADAPTER_SERVICES[i]] != DEFAULT_KEYS[ADAPTER_SERVICES[j]]
  {
  }
}
