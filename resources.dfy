/** The static resource tree that coap_endpoints_init builds at start-up:
    `/.well-known/core` for discovery and `/lights/led3` for the LED. */
module Resources {
  import opened Coap

  datatype ResourceId = Root | WellKnown | Core | Lights | Led3

  /** Operations a resource admits. */
  datatype Permission = PermGet | PermPut | PermObserve

  /** The request callback a resource is bound to. */
  datatype Handler = NoHandler | WellKnownCoreHandler | Led3Handler

  /** The path segment each resource is created with. */
  function Name(r: ResourceId): string
  {
    match r
    case Root => "/"
    case WellKnown => ".well-known"
    case Core => "core"
    case Lights => "lights"
    case Led3 => "led3"
  }

  /** The parent edge added by coap_resource_child_add. */
  function Parent(r: ResourceId): Option<ResourceId>
  {
    match r
    case Root => None
    case WellKnown => Some(Root)
    case Core => Some(WellKnown)
    case Lights => Some(Root)
    case Led3 => Some(Lights)
  }

  /** Distance from the root. */
  function Depth(r: ResourceId): nat
  {
    match r
    case Root => 0
    case WellKnown => 1
    case Lights => 1
    case Core => 2
    case Led3 => 2
  }

  /** The segments below the root that address a resource. */
  function Path(r: ResourceId): seq<string>
    decreases Depth(r)
  {
    match Parent(r)
    case None => []
    case Some(p) => Path(p) + [Name(r)]
  }

  /** Permissions the application grants to the two resources it serves.
      The other three keep the defaults of coap_resource_create, which is not
      part of this model; they are given no permission here, and no request
      reaches them, since they have no callback. */
  function Permissions(r: ResourceId): set<Permission>
  {
    match r
    case Core => {PermGet}
    case Led3 => {PermGet, PermPut, PermObserve}
    case _ => {}
  }

  function HandlerOf(r: ResourceId): Handler
  {
    match r
    case Core => WellKnownCoreHandler
    case Led3 => Led3Handler
    case _ => NoHandler
  }

  /** ct_support_mask: the formats a resource can be read in. */
  function SupportedFormats(r: ResourceId): set<ContentFormat>
  {
    if r == Led3 then {Json, PlainText} else {}
  }

  /** max_age of led3, in seconds (ticks of the scheduler). */
  const Led3MaxAge: uint32 := 15

  /** The configuration of coap_endpoints_init: where the two served
      resources sit, what they admit and which callback serves them; and no
      two resources share a path. */
  lemma EndpointConfiguration()
    ensures Path(Core) == [".well-known", "core"] && Path(Led3) == ["lights", "led3"]
    ensures Permissions(Core) == {PermGet} && HandlerOf(Core) == WellKnownCoreHandler
    ensures Permissions(Led3) == {PermGet, PermPut, PermObserve} && HandlerOf(Led3) == Led3Handler
    ensures SupportedFormats(Led3) == {Json, PlainText} && Led3MaxAge == 15
    ensures forall a, b :: a != b ==> Path(a) != Path(b)
  {
    assert Path(WellKnown) == [".well-known"];
    assert Path(Lights) == ["lights"];
    assert Path(Core) == [".well-known", "core"];
    assert Path(Led3) == ["lights", "led3"];
  }
}
