/** client/config.go and the validation step of NewClient in client/client.go. */
module Config {
  import opened Wrappers
  import opened Text

  /** Settings for transport layer security. */
  datatype TLSClientConfig = TLSClientConfig(certFile: string, keyFile: string, caFile: string, insecureSkipVerify: bool)

  /** The client configuration: server base URL, basic-auth credentials and TLS settings. */
  datatype Config = Config(host: string, username: string, password: string, tls: TLSClientConfig)

  /** `%v` of a pointer to the TLS settings: `&{cert key ca skip}`. */
  function TLSString(t: TLSClientConfig): string
  {
    "&{" + t.certFile + " " + t.keyFile + " " + t.caFile + " " + BoolString(t.insecureSkipVerify) + "}"
  }

  /** TLSClientConfig.Validate: exactly one error, naming the settings, when a certificate file
      is given without a key file; no error otherwise. */
  function ValidateTLS(t: TLSClientConfig): (errs: seq<string>)
    ensures |errs| == 1 <==> t.certFile != "" && t.keyFile == ""
    ensures errs == [] <==> !(t.certFile != "" && t.keyFile == "")
    ensures errs != [] ==> errs[0] == "KeyFile can't be empty if CertFile is set: " + TLSString(t)
  {
    if t.certFile != "" && t.keyFile == "" then ["KeyFile can't be empty if CertFile is set: " + TLSString(t)] else []
  }

  /** Config.Validate: only the TLS settings are checked. */
  function Validate(c: Config): (errs: seq<string>)
    ensures |errs| <= 1
    ensures errs == [] <==> !(c.tls.certFile != "" && c.tls.keyFile == "")
  {
    ValidateTLS(c.tls)
  }

  /** The host, user name and password never make a configuration invalid. */
  lemma HostIsNotValidated(c: Config, host: string, username: string, password: string)
    ensures Validate(c.(host := host, username := username, password := password)) == Validate(c)
  {
  }

  /** A client bound to its server URL and configuration. */
  datatype Client = Client(url: string, config: Config)

  /** NewClient: an invalid configuration gives "Config is invalide: " followed by every error
      and "; "; otherwise an error from building the transport (`transportError`, the outcome
      of reading the certificate files) is returned, or the client for the configured host. */
  method NewClient(config: Config, transportError: Option<string>) returns (r: Result<Client>)
    ensures Validate(config) != [] ==> r == Err("Config is invalide: " + Terminated(Validate(config), "; "))
    ensures Validate(config) == [] && transportError.Some? ==> r == Err(transportError.value)
    ensures Validate(config) == [] && transportError.None? ==> r == Ok(Client(config.host, config))
  {
    var errs := Validate(config);
    if |errs| != 0 {
      var msg := InvalidMessage(errs);
      return Err(msg);
    }
    if transportError.Some? {
      return Err(transportError.value);
    }
    r := Ok(Client(config.host, config));
  }

  /** The message loop of NewClient: the prefix, then every error followed by "; ". */
  method InvalidMessage(errs: seq<string>) returns (msg: string)
    ensures msg == "Config is invalide: " + Terminated(errs, "; ")
  {
    msg := "Config is invalide: ";
    for i := 0 to |errs|
      invariant msg == "Config is invalide: " + Terminated(errs[..i], "; ")
    {
      TerminatedStep(errs[..i], errs[i], "; ");
      assert errs[..i + 1] == errs[..i] + [errs[i]];
      msg := msg + errs[i] + "; ";
    }
    assert errs[..|errs|] == errs;
  }

  /** A certificate without a key is the one way to make NewClient fail before the transport. */
  lemma NewClientRejectsCertWithoutKey(config: Config)
    requires config.tls.certFile != "" && config.tls.keyFile == ""
    ensures Validate(config) == ["KeyFile can't be empty if CertFile is set: " + TLSString(config.tls)]
    ensures Terminated(Validate(config), "; ") == "KeyFile can't be empty if CertFile is set: " + TLSString(config.tls) + "; "
  {
    var e := "KeyFile can't be empty if CertFile is set: " + TLSString(config.tls);
    assert [e][..0] == [];
  }
}
