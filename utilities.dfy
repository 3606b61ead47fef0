/** The checkout page's configuration lookups
    (view/frontend/web/js/view/payment/utilities.js): a field is looked up
    in the payment method's own block of the page configuration first and in
    the module's global block second; controller URLs are built under the
    `checkout_com/` route; the customer's name is read from the billing
    address, as one string or as a first/last pair. */
module Utilities {
  import opened Base

  /** JavaScript values as these helpers meet them. Numbers are kept as
      integers; an object is its own properties in order. */
  datatype Js =
    | Undefined
    | JNull
    | JBool(b: bool)
    | JNum(n: int)
    | JStr(s: string)
    | JObj(props: seq<(string, Js)>)

  /** What a failed call throws. */
  datatype JsError = TypeError(message: string)

  const KEY_CONFIG: string := "checkoutcom_configuration"
  const ROUTE: string := "checkout_com"

  /** The first own property named `k`. */
  function Own(props: seq<(string, Js)>, k: string): Option<Js>
  {
    if |props| == 0 then None
    else if props[0].0 == k then Some(props[0].1)
    else Own(props[1..], k)
  }

  /** `v.hasOwnProperty(k)`: calling a method on null or undefined throws;
      a primitive has no own property by these names. */
  function HasOwnProperty(v: Js, k: string): (r: Result<bool, JsError>)
    ensures r.Failure? <==> v.Undefined? || v.JNull?
    ensures r == Success(true) <==> v.JObj? && Own(v.props, k).Some?
  {
    match v
    case Undefined => Failure(TypeError("Cannot read properties of undefined (reading 'hasOwnProperty')"))
    case JNull => Failure(TypeError("Cannot read properties of null (reading 'hasOwnProperty')"))
    case JObj(props) => Success(Own(props, k).Some?)
    case _ => Success(false)
  }

  /** `v[k]`, for a `v` that is neither null nor undefined. */
  function Prop(v: Js, k: string): Js
  {
    if v.JObj? && Own(v.props, k).Some? then Own(v.props, k).value else Undefined
  }

  /** `Config[b].hasOwnProperty(field)`, evaluated only once `Config` has the block `b`. */
  function BlockHas(config: seq<(string, Js)>, b: string, field: string): Result<bool, JsError>
  {
    if Own(config, b).Some? then HasOwnProperty(Own(config, b).value, field) else Success(false)
  }

  /** The block `b` exists and is an object holding `field`. */
  predicate Holds(config: seq<(string, Js)>, b: string, field: string)
  {
    Own(config, b).Some? && Own(config, b).value.JObj? && Own(Own(config, b).value.props, field).Some?
  }

  /** The block `b` exists but is null or undefined, so asking it for a field throws. */
  predicate Broken(config: seq<(string, Js)>, b: string)
  {
    Own(config, b) == Some(JNull) || Own(config, b) == Some(Undefined)
  }

  /** The value of `field` in block `b`, when `Holds`. */
  function Field(config: seq<(string, Js)>, b: string, field: string): Js
    requires Holds(config, b, field)
  {
    Own(Own(config, b).value.props, field).value
  }

  /** `getValue(methodId, field)` over the page configuration `config`. */
  function GetValue(config: seq<(string, Js)>, methodId: string, field: string): (r: Result<Js, JsError>)
    // the method's own value wins, whatever the global block holds
    ensures Holds(config, methodId, field) ==> r == Success(Field(config, methodId, field))
    // without one, the global value is used
    ensures !Holds(config, methodId, field) && !Broken(config, methodId) && Holds(config, KEY_CONFIG, field) ==>
      r == Success(Field(config, KEY_CONFIG, field))
    // with neither, the result is null
    ensures (!Holds(config, methodId, field) && !Broken(config, methodId) &&
             !Holds(config, KEY_CONFIG, field) && !Broken(config, KEY_CONFIG)) ==> r == Success(JNull)
    // it throws exactly when it asks a null or undefined block for the field
    ensures r.Failure? <==>
      Broken(config, methodId) || (!Holds(config, methodId, field) && Broken(config, KEY_CONFIG))
  {
    match BlockHas(config, methodId, field)
    case Failure(e) => Failure(e)
    case Success(true) => Success(Prop(Own(config, methodId).value, field))
    case Success(false) =>
      match BlockHas(config, KEY_CONFIG, field)
      case Failure(e) => Failure(e)
      case Success(true) => Success(Prop(Own(config, KEY_CONFIG).value, field))
      case Success(false) => Success(JNull)
  }

  // ---------------------------------------------------------------------------
  // Controller URLs

  /** The route `getUrl` hands to the URL builder. */
  function ControllerRoute(path: string): (r: string)
    ensures |r| == |ROUTE| + 1 + |path|
    ensures r[..|ROUTE| + 1] == ROUTE + "/" && r[|ROUTE| + 1..] == path
  {
    ROUTE + "/" + path
  }

  /** `getUrl(path)`: the framework's URL builder, given as `build`, applied
      to the controller route. The builder receives the module's route
      `checkout_com`, a slash and the path, unchanged. */
  function GetUrl(build: string -> string, path: string): (r: string)
    ensures r == build(ROUTE + "/" + path)
  {
    build(ControllerRoute(path))
  }

  /** Split at '/', the route is the module's front name followed by the
      pieces of the path (so `payment/placeorder` names the controller
      `placeorder` of `payment`). */
  lemma RouteSegments(path: string)
    ensures Explode('/', ControllerRoute(path)) == [ROUTE] + Explode('/', path)
  {
    assert ControllerRoute(path) == ROUTE + ['/'] + path;
    ExplodeCons('/', ROUTE, path);
  }

  /** The route is the only string whose pieces at '/' are the module's
      front name followed by the path's own pieces. */
  lemma RouteDetermined(path: string, route: string)
    ensures Explode('/', route) == [ROUTE] + Explode('/', path) <==> route == ControllerRoute(path)
  {
    RouteSegments(path);
    if Explode('/', route) == [ROUTE] + Explode('/', path) {
      ImplodeExplode('/', route);
      ImplodeExplode('/', path);
      var ps := [ROUTE] + Explode('/', path);
      assert ps[1..] == Explode('/', path);
      assert Implode('/', ps) == ROUTE + ['/'] + path;
    }
  }

  // ---------------------------------------------------------------------------
  // The customer's name

  /** JavaScript's conversion to string, as `+` applies it. */
  function ToJsString(v: Js): string
  {
    match v
    case Undefined => "undefined"
    case JNull => "null"
    case JBool(b) => if b then "true" else "false"
    case JNum(n) => IntString(n)
    case JStr(s) => s
    case JObj(_) => "[object Object]"
  }

  /** JavaScript's truthiness, as `!obj` tests it. */
  predicate JsTruthy(v: Js)
  {
    match v
    case Undefined => false
    case JNull => false
    case JBool(b) => b
    case JNum(n) => n != 0
    case JStr(s) => s != ""
    case JObj(_) => true
  }

  /** `getCustomerName(obj)` for the quote's billing address `address`
      (`obj` defaults to `false`): reading a property of a null or undefined
      address throws. */
  function GetCustomerName(address: Js, obj: Js): (r: Result<Js, JsError>)
    ensures r.Failure? <==> address.Undefined? || address.JNull?
    ensures r.Success? ==> (r.value.JObj? <==> JsTruthy(obj)) && (r.value.JStr? <==> !JsTruthy(obj))
  {
    if address.Undefined? || address.JNull? then Failure(TypeError("Cannot read properties of " + ToJsString(address) + " (reading 'firstname')"))
    else
      var first := Prop(address, "firstname");
      var last := Prop(address, "lastname");
      if !JsTruthy(obj) then Success(JStr(ToJsString(first) + " " + ToJsString(last)))
      else Success(JObj([("first_name", first), ("last_name", last)]))
  }

  /** The object form holds the address's first and last name. */
  lemma NameObjectForm(address: Js, obj: Js)
    requires address.JObj? && JsTruthy(obj)
    ensures GetCustomerName(address, obj).Success?
    ensures Prop(GetCustomerName(address, obj).value, "first_name") == Prop(address, "firstname")
    ensures Prop(GetCustomerName(address, obj).value, "last_name") == Prop(address, "lastname")
  {
    var o := GetCustomerName(address, obj).value;
    var rest := [("last_name", Prop(address, "lastname"))];
    assert o.props[1..] == rest;
    assert "first_name"[0] != "last_name"[0];
    assert Own(rest, "last_name") == Some(Prop(address, "lastname"));
    assert Own(o.props, "last_name") == Own(rest, "last_name");
  }

  /** The string form is the object form's two names joined by one space. */
  lemma NameFormsAgree(address: Js)
    requires address.JObj?
    ensures GetCustomerName(address, JBool(true)).Success? && GetCustomerName(address, JBool(false)).Success?
    ensures GetCustomerName(address, JBool(false)).value ==
      var o := GetCustomerName(address, JBool(true)).value;
      JStr(ToJsString(Prop(o, "first_name")) + " " + ToJsString(Prop(o, "last_name")))
  {
    NameObjectForm(address, JBool(true));
  }

  /** With string names and a first name without spaces, the full name
      splits back at its first space into the two names. */
  lemma NameSplitsBack(address: Js, first: string, last: string)
    requires address.JObj? && Prop(address, "firstname") == JStr(first) && Prop(address, "lastname") == JStr(last)
    requires ' ' !in first
    ensures GetCustomerName(address, JBool(false)).Success?
    ensures var full := GetCustomerName(address, JBool(false)).value.s;
      IndexOf(full, ' ') == |first| && full[..|first|] == first && full[|first| + 1..] == last
  {
    var full := first + " " + last;
    assert GetCustomerName(address, JBool(false)).value.s == full;
    IndexOfFound(full, ' ');
    assert full[|first|] == ' ';
  }
}
