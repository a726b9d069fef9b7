/**
 * Property-name derivation of BeanPathMagic.NameUtils: accessor method name to property name.
 * Letter case is decided over ASCII only.
 */
module NameUtils {

  const IS := "is"
  const GET := "get"

  /** `Character.isUpperCase`, over ASCII. */
  predicate IsUpperCase(c: char)
  {
    'A' <= c <= 'Z'
  }

  /** `Character.toLowerCase`, over ASCII. */
  function ToLowerCase(c: char): (r: char)
    ensures IsUpperCase(c) ==> 'a' <= r <= 'z' && r as int - 'a' as int == c as int - 'A' as int
    ensures !IsUpperCase(c) ==> r == c
  {
    if IsUpperCase(c) then (c as int + 32) as char else c
  }

  /** The name is longer than the prefix, starts with it, and an upper-case letter follows it. */
  predicate HasAccessorPrefix(name: string, prefix: string)
  {
    |name| > |prefix| && prefix <= name && IsUpperCase(name[|prefix|])
  }

  /**
   * `stripGetIsPrefixIfAny(name)`: drops a "get" prefix, failing that an "is" prefix, and
   * decapitalises what is left; any other name is returned as it is.
   */
  function StripGetIsPrefixIfAny(name: string): (r: string)
    ensures name != [] ==> r != []
    ensures |r| <= |name|
    ensures r == name || HasAccessorPrefix(name, GET) || HasAccessorPrefix(name, IS)
    ensures r != name ==>
      var k := |name| - |r|;
      && ((k == |GET| && GET <= name) || (k == |IS| && IS <= name))
      && (r[0] == name[k] || r[0] == ToLowerCase(name[k]))
      && r[1..] == name[k + 1..]
  {
    if |name| > |GET| && GET <= name && IsUpperCase(name[|GET|]) then
      StripAndDecapitalize(name, GET)
    else if |name| > |IS| && IS <= name && IsUpperCase(name[|IS|]) then
      StripAndDecapitalize(name, IS)
    else
      name
  }

  /**
   * `stripAndDecapitalize(name, prefix)`: the name without the prefix, its first character
   * lower-cased unless the next one is upper case too.
   */
  function StripAndDecapitalize(name: string, prefix: string): (r: string)
    requires |prefix| < |name|
    ensures |r| == |name| - |prefix|
    ensures r[1..] == name[|prefix| + 1..]
  {
    var prefixLength := |prefix|;
    var i := prefixLength + 1;
    if |name| <= i || !IsUpperCase(name[i]) then
      [ToLowerCase(name[prefixLength])] + name[prefixLength + 1..]
    else
      name[prefixLength..]
  }

  /**
   * `java.beans.Introspector.decapitalize`, the rule of section 8.8 of the JavaBeans API
   * Specification 1.01: the first character is lower-cased, unless the first two are both
   * upper case, in which case the name is left alone.
   */
  function Decapitalize(s: string): string
  {
    if s == [] then s
    else if |s| > 1 && IsUpperCase(s[1]) && IsUpperCase(s[0]) then s
    else [ToLowerCase(s[0])] + s[1..]
  }

  /**
   * The derived name is the JavaBeans property name: the remainder after a "get" prefix, or
   * else after an "is" prefix, decapitalised; an accessor without either prefix keeps its name.
   */
  lemma StripGetIsPrefixIsJavaBeansRule(name: string)
    ensures StripGetIsPrefixIfAny(name) ==
      if HasAccessorPrefix(name, GET) then Decapitalize(name[|GET|..])
      else if HasAccessorPrefix(name, IS) then Decapitalize(name[|IS|..])
      else name
  {
    if HasAccessorPrefix(name, GET) {
      StripAndDecapitalizeIsDecapitalize(name, GET);
    } else if HasAccessorPrefix(name, IS) {
      StripAndDecapitalizeIsDecapitalize(name, IS);
    }
  }

  /** Behind an upper-case letter, stripping and decapitalising is `Decapitalize` of the rest. */
  lemma StripAndDecapitalizeIsDecapitalize(name: string, prefix: string)
    requires HasAccessorPrefix(name, prefix)
    ensures StripAndDecapitalize(name, prefix) == Decapitalize(name[|prefix|..])
  {
    var rest := name[|prefix|..];
    assert rest[0] == name[|prefix|];
    assert |rest| > 1 ==> rest[1] == name[|prefix| + 1];
    assert rest[1..] == name[|prefix| + 1..];
  }

  /**
   * What a derived name that differs from the method name looks like: it starts with a lower-case
   * letter, or with two upper-case letters (an acronym such as "UTC" is kept).
   */
  lemma DerivedNameStartsDecapitalised(name: string)
    requires StripGetIsPrefixIfAny(name) != name
    ensures var r := StripGetIsPrefixIfAny(name);
      || (r[0] == ToLowerCase(name[|name| - |r|]) && (|r| == 1 || !IsUpperCase(r[1])))
      || (|r| > 1 && IsUpperCase(r[0]) && IsUpperCase(r[1]))
  {
    StripGetIsPrefixIsJavaBeansRule(name);
  }

  /** The examples the library's tests check. */
  lemma NamingExamples()
    ensures StripGetIsPrefixIfAny("getProperty") == "property"
    ensures StripGetIsPrefixIfAny("isProperty") == "property"
    ensures StripGetIsPrefixIfAny("getA") == "a"
    ensures StripGetIsPrefixIfAny("getUTC") == "UTC"
    ensures StripGetIsPrefixIfAny("property") == "property"
    ensures StripGetIsPrefixIfAny("is") == "is"
    ensures StripGetIsPrefixIfAny("get") == "get"
    ensures StripGetIsPrefixIfAny("getting") == "getting"
    ensures StripGetIsPrefixIfAny("isabel") == "isabel"
  {
  }
}
