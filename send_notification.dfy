/**
  The argument checks of `Pushe.sendNotificationToUser({type, userId, ...otherParams})`,
  which run before the request goes to the native layer. The platform is a
  parameter (`Platform.OS`); the request object is its own enumerable
  properties; the outcome is a value instead of `undefined` or a Promise.
 */
module SendNotification {
  import opened Wrappers
  import opened JsValues
  import opened PusheTables

  /**
    What the call does: nothing on iOS, a rejected Promise with a message, or a
    call into the native layer with the identifier kind, the user and the
    remaining parameters.
   */
  datatype SendResult =
    | Unsupported
    | Reject(message: string)
    | Forward(idType: JsValue, userId: JsValue, otherParams: map<string, JsValue>)

  const MissingFields: string := "Must specify `type` & `userId`"
  const InvalidType: string := "Provide valid type from `Pushe.ANDROID_ID_TYPES`"

  /** `...otherParams`: every property but `type` and `userId`. */
  function OtherParams(request: map<string, JsValue>): map<string, JsValue> {
    request - {"type", "userId"}
  }

  /** The identifier kinds the bridge documents as valid. */
  predicate IsAndroidIdType(v: JsValue) {
    v == Str("CUSTOM_ID") || v == Str("ANDROID_ID") || v == Str("ADVERTISEMENT_ID")
  }

  /**
    The properties every plain object literal inherits from `Object.prototype`;
    each of them reads as a function (or, for `__proto__`, an object), so each is
    truthy.
   */
  const ObjectPrototypeNames: set<string> := {
    "constructor", "hasOwnProperty", "isPrototypeOf", "propertyIsEnumerable",
    "toString", "toLocaleString", "valueOf", "__proto__",
    "__defineGetter__", "__defineSetter__", "__lookupGetter__", "__lookupSetter__"
  }

  /** The outcome of reading a property of the `ANDROID_ID_TYPES` object literal. */
  datatype Lookup = Own(value: string) | Inherited(name: string) | Absent

  /**
    `Pushe.ANDROID_ID_TYPES[key]`, with the prototype chain: an own key reads
    its own name, and the read is truthy exactly for the own and the inherited
    names.
   */
  function ReadAndroidIdTypes(key: Option<string>): (r: Lookup)
    ensures r.Own? ==> key == Some(r.value) && r.value in AndroidIdTypes
    ensures r.Inherited? ==> key == Some(r.name) && r.name in ObjectPrototypeNames
    ensures LookupTruthy(r) <==> key.Some? && key.value in AndroidIdTypes.Keys + ObjectPrototypeNames
  {
    AndroidIdTypesSelfNamed();
    if key.Some? && key.value in AndroidIdTypes then Own(AndroidIdTypes[key.value])
    else if key.Some? && key.value in ObjectPrototypeNames then Inherited(key.value)
    else Absent
  }

  predicate LookupTruthy(l: Lookup) {
    l.Inherited? || (l.Own? && l.value != "")
  }

  /** Every property name of `ANDROID_ID_TYPES`, own or inherited, starts with a letter or `_`. */
  lemma PropertyNamesAreNotNumbers()
    ensures forall name :: name in AndroidIdTypes.Keys + ObjectPrototypeNames ==> |name| > 0 && name[0] !in "-" + Digits
  {
  }

  /** No number, boolean, object, `null` or `undefined` names a property of `ANDROID_ID_TYPES`. */
  lemma OnlyStringsNameIdTypes(v: JsValue)
    ensures !v.Str? ==> !(PropertyKey(v).Some? && PropertyKey(v).value in AndroidIdTypes)
    ensures !v.Str? ==> !(PropertyKey(v).Some? && PropertyKey(v).value in ObjectPrototypeNames)
  {
    if v.Num? {
      PropertyNamesAreNotNumbers();
    }
  }

  /**
    The checks as the bridge writes them: the type test reads
    `Pushe.ANDROID_ID_TYPES[type]` and so also accepts the names of inherited
    `Object.prototype` members.
   */
  function SendNotificationToUserAsWritten(os: string, request: map<string, JsValue>): (r: SendResult)
    ensures r == Unsupported <==> os == "ios"
    ensures r == Reject(MissingFields) <==>
      os != "ios" && (!Truthy(Get(request, "type")) || !Truthy(Get(request, "userId")))
    ensures r.Forward? <==>
      && os != "ios" && Truthy(Get(request, "userId"))
      && (IsAndroidIdType(Get(request, "type"))
          || (Get(request, "type").Str? && Get(request, "type").s in ObjectPrototypeNames))
    ensures r.Forward? ==> r == Forward(request["type"], request["userId"], OtherParams(request))
    ensures !(r == Unsupported || r == Reject(MissingFields) || r.Forward?) ==> r == Reject(InvalidType)
  {
    var idType := Get(request, "type");
    var userId := Get(request, "userId");
    OnlyStringsNameIdTypes(idType);
    if os == "ios" then Unsupported
    else if !Truthy(idType) || !Truthy(userId) then Reject(MissingFields)
    else if !LookupTruthy(ReadAndroidIdTypes(PropertyKey(idType))) then Reject(InvalidType)
    else Forward(idType, userId, OtherParams(request))
  }

  /**
    The checks as intended: only an own key of `Pushe.ANDROID_ID_TYPES` is a
    valid type. In order: iOS is unsupported whatever the request; a falsy
    `type` or `userId` is rejected as missing; any other type is rejected as
    invalid; otherwise the request is forwarded without `type` and `userId` in
    its remaining parameters.
   */
  function SendNotificationToUser(os: string, request: map<string, JsValue>): (r: SendResult)
    ensures r == Unsupported <==> os == "ios"
    ensures r == Reject(MissingFields) <==>
      os != "ios" && (!Truthy(Get(request, "type")) || !Truthy(Get(request, "userId")))
    ensures r == Reject(InvalidType) <==>
      && os != "ios" && Truthy(Get(request, "type")) && Truthy(Get(request, "userId"))
      && !IsAndroidIdType(Get(request, "type"))
    ensures r.Forward? <==>
      os != "ios" && IsAndroidIdType(Get(request, "type")) && Truthy(Get(request, "userId"))
    ensures r.Forward? ==>
      && r.idType == request["type"] && r.userId == request["userId"]
      && r.otherParams.Keys == request.Keys - {"type", "userId"}
      && (forall k :: k in r.otherParams ==> r.otherParams[k] == request[k])
  {
    var idType := Get(request, "type");
    var userId := Get(request, "userId");
    OnlyStringsNameIdTypes(idType);
    var key := PropertyKey(idType);
    if os == "ios" then Unsupported
    else if !Truthy(idType) || !Truthy(userId) then Reject(MissingFields)
    else if !(key.Some? && key.value in AndroidIdTypes) then Reject(InvalidType)
    else Forward(idType, userId, OtherParams(request))
  }

  /**
    The two versions differ only on a `type` that names an inherited
    `Object.prototype` member: the written check forwards it, the intended one
    rejects it as invalid.
   */
  lemma AsWrittenDiffersOnlyOnInheritedNames(os: string, request: map<string, JsValue>)
    ensures var idType := Get(request, "type");
      var inherited := os != "ios" && Truthy(Get(request, "userId"))
                       && idType.Str? && idType.s in ObjectPrototypeNames;
      && (!inherited ==> SendNotificationToUserAsWritten(os, request) == SendNotificationToUser(os, request))
      && (inherited ==>
            && SendNotificationToUserAsWritten(os, request).Forward?
            && SendNotificationToUser(os, request) == Reject(InvalidType))
  {
  }

  /** A request whose type is `"toString"` passes the written check and reaches the native layer. */
  lemma InheritedNameIsForwarded()
    ensures SendNotificationToUserAsWritten("android", map["type" := Str("toString"), "userId" := Str("u1")])
         == Forward(Str("toString"), Str("u1"), map[])
    ensures SendNotificationToUser("android", map["type" := Str("toString"), "userId" := Str("u1")])
         == Reject(InvalidType)
  {
  }
}
