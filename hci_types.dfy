/** Connection details the client is given for a vCenter server or an ESXi host. */
module HciTypes {
  import opened JavaLang

  /** `VcInfo`. */
  datatype VcInfo = VcInfo(ipAddress: Option<string>, userName: Option<string>, password: Option<string>)

  /** `HostInfo`. */
  datatype HostInfo = HostInfo(ipAddress: Option<string>, hostName: Option<string>,
                               userName: Option<string>, password: Option<string>)

  /** Which reading of a check the code gets wrong is meant: the code as
      it is written, or what its own comments say it should do. */
  datatype Reading = AsWritten | Intended

  /** The message list one validation test contributes: the message when the test fails, nothing otherwise. */
  function MessageIf(fails: bool, msg: string): (r: seq<string>)
    ensures |r| <= 1
  {
    if fails then [msg] else []
  }

  /** Regrouping appended message lists. */
  lemma AppendAssoc<T>(a: seq<T>, b: seq<T>, c: seq<T>)
    ensures a + b + c == a + (b + c)
  {
  }
}
