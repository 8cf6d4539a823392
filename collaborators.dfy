/**
 * The two outside services the pipeline preparation talks to, modelled by their
 * observable behaviour only: the orchestra context's configuration store and the
 * operating system's free-port finder.
 */
module Collaborators {
  import opened Wrappers
  import opened LegacyConfig

  datatype StoreError = Missing(url: string) | Rejected(url: string)

  /**
   * The configuration store of the orchestra context: service configurations by URL.
   * Reading hands out a copy of the stored value; writing to a URL in `readOnly` fails.
   */
  class Orchestra {
    var configs: map<string, Config>
    const readOnly: set<string>

    constructor (configs: map<string, Config>, readOnly: set<string>)
      ensures this.configs == configs && this.readOnly == readOnly
    {
      this.configs := configs;
      this.readOnly := readOnly;
    }

    function GetConfig(url: string): (r: Result<Config, StoreError>)
      reads this
      ensures r.Ok? <==> url in configs
      ensures r.Ok? ==> r.value == configs[url]
    {
      if url in configs then Ok(configs[url]) else Err(Missing(url))
    }

    method SetConfig(url: string, config: Config) returns (err: Option<StoreError>)
      modifies this
      ensures err.None? <==> url !in readOnly
      ensures err.Some? ==> err.value == Rejected(url)
      ensures configs == if err.None? then old(configs)[url := config] else old(configs)
    {
      if url in readOnly {
        err := Some(Rejected(url));
      } else {
        configs := configs[url := config];
        err := None;
      }
    }
  }

  /** The free-port finder: the n-th request (counting from 0) is answered with `free(n)`. */
  class FreePorts {
    const free: nat -> nat
    var calls: nat

    constructor (free: nat -> nat)
      ensures this.free == free && calls == 0
    {
      this.free := free;
      calls := 0;
    }

    method GetFreePort() returns (port: nat)
      modifies this
      ensures port == free(old(calls)) && calls == old(calls) + 1
    {
      port := free(calls);
      calls := calls + 1;
    }
  }
}
