/** The upstream deployments that routing strategies, limits and health state refer to. */
module Deployments {

  datatype Option<+T> = None | Some(value: T)

  /** The stable string identity of a deployment. */
  datatype DeploymentKey = DeploymentKey(text: string)

  datatype Protocol = Protocol(name: string, path: string)

  /**
   * One configured upstream. The source compares deployments by identity; `id` plays that
   * part, so two deployments with equal settings may still be different values.
   */
  datatype Deployment = Deployment(
    id: nat,
    modelName: string,
    providerName: string,
    actualModel: string,
    apiBase: string,
    apiKey: string,
    decision: Option<Protocol>,
    rpm: int,
    tpm: int)
  {
    /** The identity that survives a configuration reload; it leaves out the API key. */
    function Key(): DeploymentKey
    {
      var base := providerName + ":" + actualModel + ":" + apiBase;
      match decision
      case None => DeploymentKey(base)
      case Some(p) => DeploymentKey(base + ":decision:" + p.name + ":" + p.path)
    }
  }

  /** The keys of the listed deployments, position by position. */
  function Keys(ds: seq<Deployment>): (keys: seq<DeploymentKey>)
    ensures |keys| == |ds|
    ensures forall i | 0 <= i < |ds| :: keys[i] == ds[i].Key()
  {
    seq(|ds|, i requires 0 <= i < |ds| => ds[i].Key())
  }
}
