/** The service descriptor and the `Servicer` capability. A servicer's
    behaviour is an oracle: the outcome of its `Init` and what each of its
    `Run` calls returns. A nil `Run` means a clean stop; an error means a
    crash, which the restart policy may retry. */
module Services {
  import opened Errors
  import opened Retry

  /** A `Servicer`: `init` is what `Init` returns, `run(k)` what the k-th
      call of `Run` (from 0) within one run of the service returns. */
  datatype Servicer = Servicer(init: Option<Error>, run: Target)

  /** A `Service`: its name, its servicer, whether restart is enabled and
      the restart options. */
  datatype Service = Service(name: string, servicer: Servicer, restartEnabled: bool, restartOpts: Opts)

  /** Restart needs both the flag and a configured strategy. */
  predicate RestartApplies(s: Service)
  {
    s.restartEnabled && s.restartOpts.backoff.Some?
  }
}
