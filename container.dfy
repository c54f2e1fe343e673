/** The service registry of src/infrastructure/container.ts: a map from a key
    to a factory, with register, resolve and has, and the application-wide
    container that registers the two repositories. A factory is an opaque
    value; invoking it yields the service it builds. */
module Container {
  import opened Common

  /** What the application's factories build. */
  datatype Service = ProductRepositoryService | OrderRepositoryService

  /** A factory, known only by what it builds. */
  datatype Factory = Factory(builds: Service)

  /** Calling a factory. */
  function Invoke(f: Factory): Service { f.builds }

  const ProductRepositoryKey: string := "ProductRepository"
  const OrderRepositoryKey: string := "OrderRepository"

  /** The message `resolve` throws for an unregistered key: the key, between
      "Service " and " not found". */
  function NotFoundMessage(key: string): (m: string)
    ensures |m| == |key| + 18
    ensures m[..8] == "Service " && m[8..8 + |key|] == key && m[8 + |key|..] == " not found"
  {
    "Service " + key + " not found"
  }

  /** The outcome of `resolve`: the built service, or the thrown error text. */
  datatype Resolved = Resolved(service: Service) | NotFound(message: string)

  /** `resolve` against a registry: invoke the factory under `key`, or fail
      with the not-found message. */
  function ResolveIn(services: map<string, Factory>, key: string): (r: Resolved)
    ensures r.Resolved? <==> key in services
    ensures r.Resolved? ==> r.service == Invoke(services[key])
    ensures r.NotFound? ==> r.message == NotFoundMessage(key)
  {
    if key in services then Resolved(Invoke(services[key])) else NotFound(NotFoundMessage(key))
  }

  /** Registering `key` makes it resolvable to the new factory's service,
      replacing any earlier factory, and changes nothing for any other key. */
  lemma RegisterThenResolve(services: map<string, Factory>, key: string, f: Factory, other: string)
    ensures ResolveIn(services[key := f], key) == Resolved(Invoke(f))
    ensures other != key ==> ResolveIn(services[key := f], other) == ResolveIn(services, other)
    ensures other != key ==> (other in services[key := f] <==> other in services)
  {
  }

  /** The not-found message names the key, so different keys give different
      messages. */
  lemma NotFoundNamesKey(a: string, b: string)
    ensures NotFoundMessage(a) == NotFoundMessage(b) ==> a == b
  {
    var prefix := "Service ";
    var suffix := " not found";
    if NotFoundMessage(a) == NotFoundMessage(b) {
      assert |a| == |b|;
      assert a == NotFoundMessage(a)[|prefix|..|prefix| + |a|];
      assert b == NotFoundMessage(b)[|prefix|..|prefix| + |b|];
    }
  }

  class DIContainer {
    var services: map<string, Factory>

    constructor ()
      ensures services == map[]
    {
      services := map[];
    }

    /** `register`: store the factory under the key, replacing an earlier one. */
    method Register(key: string, factory: Factory)
      modifies this
      ensures services == old(services)[key := factory]
      ensures Has(key)
    {
      services := services[key := factory];
    }

    /** `resolve`: the result of invoking the registered factory, or the
        not-found error. */
    method Resolve(key: string) returns (r: Resolved)
      ensures r == ResolveIn(services, key)
    {
      if key in services {
        r := Resolved(Invoke(services[key]));
      } else {
        r := NotFound(NotFoundMessage(key));
      }
    }

    /** `has`: true exactly for the keys `resolve` finds. */
    function Has(key: string): (found: bool)
      reads this
      ensures found <==> ResolveIn(services, key).Resolved?
    {
      key in services
    }
  }

  /** The application's container, with both repositories registered. */
  method AppContainer() returns (c: DIContainer)
    ensures fresh(c)
    ensures c.Has(ProductRepositoryKey) && c.Has(OrderRepositoryKey)
    ensures ResolveIn(c.services, ProductRepositoryKey) == Resolved(ProductRepositoryService)
    ensures ResolveIn(c.services, OrderRepositoryKey) == Resolved(OrderRepositoryService)
  {
    c := new DIContainer();
    c.Register(ProductRepositoryKey, Factory(ProductRepositoryService));
    c.Register(OrderRepositoryKey, Factory(OrderRepositoryService));
  }
}
