/**
 The auto-configuration as the objects it is made of: a configuration object
 with a mutable observed port and a reference to one properties object whose
 local service instance is patched in place. The constructor,
 `BuildDiscoveryProperties` and `OnApplicationEvent` are tied to the pure state
 machine of `PortResolution` through `Model()`.
 */
module AutoConfiguration {
  import opened Wrappers
  import opened PortResolution

  /** The mutable local service instance held by the discovery properties. */
  class ServiceInstance {
    var serviceId: Option<string>
    var host: Option<string>
    var port: Int32

    constructor()
      ensures Value() == Unset
    {
      serviceId := None;
      host := None;
      port := 0;
    }

    /** The instance's current field values. */
    function Value(): LocalInstance
      reads this
    {
      LocalInstance(serviceId, host, port)
    }
  }

  /** The discovery properties object; `local` is the one instance it advertises. */
  class DiscoveryProperties {
    const local: ServiceInstance

    constructor()
      ensures fresh(local)
      ensures local.Value() == Unset
    {
      local := new ServiceInstance();
    }
  }

  /** The discovery client bean: it keeps a reference to the properties it was built from. */
  class DiscoveryClient {
    const properties: DiscoveryProperties

    constructor(properties: DiscoveryProperties)
      ensures this.properties == properties
    {
      this.properties := properties;
    }
  }

  class SimpleDiscoveryClientAutoConfiguration {
    /** Injected server properties; `None` when no such bean exists. */
    const server: Option<ServerProperties>
    /** The port reported by the last server event; 0 until one arrives. */
    var port: Int32
    /** The properties object; the field is never reassigned. */
    const simple: DiscoveryProperties

    /** The pure state this object stands for. */
    function Model(): State
      reads this, simple.local
    {
      State(server, port, SimpleDiscoveryProperties(simple.local.Value()))
    }

    /** Construction followed by the optional injection of the server properties. */
    constructor(server: Option<ServerProperties>)
      ensures Model() == Init(server)
      ensures fresh(simple) && fresh(simple.local)
    {
      this.server := server;
      port := UnknownPort;
      simple := new DiscoveryProperties();
    }

    /** `findPort()` over the object's fields. */
    function FindPort(): (r: Int32)
      reads this
      ensures r > 0
      ensures port > 0 ==> r == port
      ensures port <= 0 ==> r == FallbackPort(server)
    {
      PortResolution.FindPort(port, server)
    }

    /** `simpleDiscoveryProperties(serviceId)`: fills the local instance in place
        and hands out the object's own properties. */
    method BuildDiscoveryProperties(serviceId: string, hostname: string) returns (r: DiscoveryProperties)
      modifies simple.local
      ensures r == simple
      ensures (Model(), SimpleDiscoveryProperties(r.local.Value()))
           == BuildProperties(old(Model()), serviceId, hostname)
      ensures r.local.serviceId == Some(serviceId) && r.local.host == Some(hostname)
      ensures r.local.port == old(FindPort())
    {
      simple.local.serviceId := Some(serviceId);
      simple.local.host := Some(hostname);
      simple.local.port := FindPort();
      r := simple;
    }

    /** `onApplicationEvent`: records the reported port, and patches the local
        instance only when that port is positive. */
    method OnApplicationEvent(reported: Int32)
      modifies this, simple.local
      ensures Model() == OnServerInitialized(old(Model()), reported)
      ensures port == reported
      ensures reported > 0 ==> simple.local.port == reported
      ensures reported <= 0 ==> simple.local.Value() == old(simple.local.Value())
      ensures simple.local.serviceId == old(simple.local.serviceId)
      ensures simple.local.host == old(simple.local.host)
    {
      port := reported;
      if port > 0 {
        simple.local.port := port;
      }
    }

    /** `simpleDiscoveryClient(properties)`: wraps the given properties without copying. */
    method BuildDiscoveryClient(properties: DiscoveryProperties) returns (c: DiscoveryClient)
      ensures c.properties == properties
    {
      c := new DiscoveryClient(properties);
    }
  }

  /** The startup order the framework drives: the configuration is built, the
      properties and then the client beans are created, and finally the web server
      reports the port it bound. A client obtained before that report sees the
      bound port when it is positive, and the port resolved at build time otherwise. */
  method Startup(server: Option<ServerProperties>, serviceId: string, hostname: string, bound: Int32)
    returns (config: SimpleDiscoveryClientAutoConfiguration, client: DiscoveryClient)
    ensures client.properties == config.simple
    ensures config.port == bound
    ensures client.properties.local.serviceId == Some(serviceId)
    ensures client.properties.local.host == Some(hostname)
    ensures bound > 0 ==> client.properties.local.port == bound
    ensures bound <= 0 ==> client.properties.local.port == FallbackPort(server)
    ensures client.properties.local.port > 0
  {
    config := new SimpleDiscoveryClientAutoConfiguration(server);
    var properties := config.BuildDiscoveryProperties(serviceId, hostname);
    client := config.BuildDiscoveryClient(properties);
    config.OnApplicationEvent(bound);
  }
}
