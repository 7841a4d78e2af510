/** What the two commands share: the loaded configuration, the session check and the verbose rule. */
module Command {
  import opened Wrappers
  import Tunnel

  /** The configuration the commands read: the private key (hex), the session if any, and the MTU. */
  datatype Config = Config(privateKey: string, session: Option<Tunnel.Session>, mtu: nat)

  const SessionMissing :=
    "Failed to determine connection information. Please bootstrap or create a new session from the user console."

  const ClientFailed := "Failed to create a new client: "

  /** Verbose output is switched on exactly when `SORACOM_VERBOSE` is set to a non-empty value. */
  predicate VerboseEnabled(soracomVerbose: string)
  {
    soracomVerbose != ""
  }
}
