/**
 * Reading a property of a JavaScript object literal. A key the literal does
 * not define is looked up on `Object.prototype`, whose members are all
 * truthy (functions, and the prototype object itself for `__proto__`).
 */
module JsObjects {
  /** The properties every object literal inherits from `Object.prototype`. */
  const ObjectPrototypeKeys: set<string> := {
    "constructor", "hasOwnProperty", "isPrototypeOf", "propertyIsEnumerable",
    "toLocaleString", "toString", "valueOf", "__proto__",
    "__defineGetter__", "__defineSetter__", "__lookupGetter__", "__lookupSetter__"}

  /**
   * The value a class attribute receives: a class string, or the string form
   * of the inherited `Object.prototype` member named `key`.
   */
  datatype ClassValue = Class(name: string) | InheritedMember(key: string)

  /** `table[key] || fallback` for an object literal of string values. */
  function LookupOr(table: map<string, string>, key: string, fallback: string): (r: ClassValue)
    ensures key in table && table[key] != "" ==> r == Class(table[key])
    ensures key !in table && key in ObjectPrototypeKeys ==> r == InheritedMember(key)
    ensures r == Class(fallback) <==>
      (key in table && (table[key] == "" || table[key] == fallback))
      || (key !in table && key !in ObjectPrototypeKeys)
  {
    if key in table && table[key] != "" then Class(table[key])
    else if key !in table && key in ObjectPrototypeKeys then InheritedMember(key)
    else Class(fallback)
  }
}
