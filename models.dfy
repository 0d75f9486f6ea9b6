/** The configuration records of both programs: data only. */
module Models {

  /** C#'s int. */
  newtype Int32 = x: int | -0x8000_0000 <= x < 0x8000_0000

  /**
   * KubeClient.Core.Models.PodMapping. A missing Namespace or ClusterName
   * (null) is "".
   */
  datatype PodMapping = PodMapping(
    LocalPort: Int32,
    RemotePort: Int32,
    Name: string,
    Namespace: string,
    ClusterName: string)

  /** KubeClient.PodMapping, the console program's record: the cluster is called Cluster. */
  datatype ConsolePodMapping = ConsolePodMapping(
    LocalPort: Int32,
    RemotePort: Int32,
    Name: string,
    Namespace: string,
    Cluster: string)
}
