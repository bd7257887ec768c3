/** The two PHP string behaviours the discount adjuster relies on: the
    truthiness of a string in a condition, and `strcasecmp`.
    A nullable string is represented by "" throughout the model: PHP's
    `strcasecmp` reads null as "", and `null == ""` holds in PHP. */
module PhpStrings {

  /** PHP's boolean conversion of a string: only "" and "0" are false. */
  predicate Truthy(s: string)
  {
    s != "" && s != "0"
  }

  /** ASCII case folding, as `strcasecmp` does it. */
  function ToLower(c: char): char
  {
    if 'A' <= c <= 'Z' then (c as int + 32) as char else c
  }

  /** `strcasecmp(a, b) == 0`: the same length and equal after case folding. */
  predicate EqualsIgnoreCase(a: string, b: string)
  {
    |a| == |b| && forall i :: 0 <= i < |a| ==> ToLower(a[i]) == ToLower(b[i])
  }

}
