/** The server's configuration: every size, link length and URL is read from
    an environment variable, falling back to a built-in default. */
module Config {

  /** `getEnvVar`: the variable's value when it is set, the default otherwise. */
  function GetEnvVar<T>(env: map<string, T>, name: string, default: T): (r: T)
    ensures name in env ==> r == env[name]
    ensures name !in env ==> r == default
  {
    if name in env then env[name] else default
  }

  datatype Config = Config(
    masterSize: nat,
    minionSize: nat,
    podSize: nat,
    linkSizePodToMinion: nat,
    linkSizeMinionToMaster: nat,
    dummyNodes: nat,
    namespacesUrl: string,
    nodesApiUrl: string,
    pollingIntervalInSeconds: nat)

  /** The namespace polled until a viewer asks for another one. */
  const DefaultNamespace: string := "default"

  /** The configuration read at start-up. `numeric` holds the environment
      variables read as numbers, `textual` those read as URLs. */
  function LoadConfig(numeric: map<string, nat>, textual: map<string, string>): (c: Config)
    ensures "masterSize" in numeric ==> c.masterSize == numeric["masterSize"]
    ensures "masterSize" !in numeric ==> c.masterSize == 15
    ensures "minionSize" in numeric ==> c.minionSize == numeric["minionSize"]
    ensures "minionSize" !in numeric ==> c.minionSize == 15
    ensures "podSize" in numeric ==> c.podSize == numeric["podSize"]
    ensures "podSize" !in numeric ==> c.podSize == 15
    ensures "linkSizePodToMinion" in numeric ==> c.linkSizePodToMinion == numeric["linkSizePodToMinion"]
    ensures "linkSizePodToMinion" !in numeric ==> c.linkSizePodToMinion == 150
    ensures "linkSizeMinionToMaster" in numeric ==> c.linkSizeMinionToMaster == numeric["linkSizeMinionToMaster"]
    ensures "linkSizeMinionToMaster" !in numeric ==> c.linkSizeMinionToMaster == 250
    ensures "dummyNodes" in numeric ==> c.dummyNodes == numeric["dummyNodes"]
    ensures "dummyNodes" !in numeric ==> c.dummyNodes == 0
    ensures "namespacesUrl" in textual ==> c.namespacesUrl == textual["namespacesUrl"]
    ensures "namespacesUrl" !in textual ==> c.namespacesUrl == "http://127.0.0.1:8001/api/v1/namespaces/"
    ensures "nodesApiUrl" in textual ==> c.nodesApiUrl == textual["nodesApiUrl"]
    ensures "nodesApiUrl" !in textual ==> c.nodesApiUrl == "http://127.0.0.1:8001/api/v1/nodes"
    ensures "pollingIntervalInSeconds" in numeric ==> c.pollingIntervalInSeconds == numeric["pollingIntervalInSeconds"]
    ensures "pollingIntervalInSeconds" !in numeric ==> c.pollingIntervalInSeconds == 1
  {
    Config(
      GetEnvVar(numeric, "masterSize", 15),
      GetEnvVar(numeric, "minionSize", 15),
      GetEnvVar(numeric, "podSize", 15),
      GetEnvVar(numeric, "linkSizePodToMinion", 150),
      GetEnvVar(numeric, "linkSizeMinionToMaster", 250),
      GetEnvVar(numeric, "dummyNodes", 0),
      GetEnvVar(textual, "namespacesUrl", "http://127.0.0.1:8001/api/v1/namespaces/"),
      GetEnvVar(textual, "nodesApiUrl", "http://127.0.0.1:8001/api/v1/nodes"),
      GetEnvVar(numeric, "pollingIntervalInSeconds", 1))
  }

  /** The URL `poll` requests: the namespaces base, the namespace, then `/pods`.
      The namespace can be read back from between the two fixed parts. */
  function PodsUrl(namespacesUrl: string, namespace: string): (url: string)
    ensures |url| == |namespacesUrl| + |namespace| + 5
    ensures url[..|namespacesUrl|] == namespacesUrl
    ensures url[|namespacesUrl|..|url| - 5] == namespace
    ensures url[|url| - 5..] == "/pods"
  {
    namespacesUrl + namespace + "/pods"
  }

  /** Different namespaces are polled at different URLs. */
  lemma PodsUrlInjective(namespacesUrl: string, a: string, b: string)
    requires PodsUrl(namespacesUrl, a) == PodsUrl(namespacesUrl, b)
    ensures a == b
  {
    var u := PodsUrl(namespacesUrl, a);
    assert a == u[|namespacesUrl|..|u| - 5];
  }

  /** With no environment variables set, the first poll asks for the pods of
      the `default` namespace on the local API proxy. */
  lemma DefaultPodsUrl()
    ensures PodsUrl(LoadConfig(map[], map[]).namespacesUrl, DefaultNamespace)
            == "http://127.0.0.1:8001/api/v1/namespaces/default/pods"
  {
  }
}
