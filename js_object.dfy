/** Property lookup on a plain object literal `{}`, which both the event
    emitter's `events` record and the tool manager's `tools` record are. */
module JsObject {
  /** The names `{}` inherits from `Object.prototype`: `obj[name]` is a truthy
      member for each of them although no own property was ever set. */
  const InheritedNames: set<string> := {
    "constructor", "hasOwnProperty", "isPrototypeOf", "propertyIsEnumerable",
    "toLocaleString", "toString", "valueOf", "__proto__",
    "__defineGetter__", "__defineSetter__", "__lookupGetter__", "__lookupSetter__"}
}
