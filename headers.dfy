/**
 * HTTP header maps as Go's net/http keeps them (type http.Header): each
 * canonical header name maps to the list of values received for it, in order.
 * Keys are assumed to be in canonical form already, as the request parser
 * leaves them and as the constant "X-Delay-Host" is written.
 */
module Headers {

  type Header = map<string, seq<string>>

  /** Header.Get: the first value stored under `key`, or "" when there is none. */
  function Get(h: Header, key: string): (v: string)
    ensures key in h && h[key] != [] ==> v == h[key][0]
    ensures key !in h || h[key] == [] ==> v == ""
  {
    if key in h && h[key] != [] then h[key][0] else ""
  }

  /** Header.Del: removes every value stored under `key`; all other keys keep their values. */
  function Del(h: Header, key: string): (d: Header)
    ensures key !in d
    ensures d.Keys == h.Keys - {key}
    ensures forall k :: k in d ==> d[k] == h[k]
    ensures Get(d, key) == ""
    ensures forall k :: k != key ==> Get(d, k) == Get(h, k)
  {
    h - {key}
  }
}
