/**
 * The URLs of the matching server (code/meme-client/src/app.ts, lines 2-3,
 * 111 and 118): a base URL on localhost and two endpoints built on it by
 * string concatenation.
 */
module Urls {
  import opened Wrappers

  const Host: string := "http://localhost:"
  const DefaultPort: string := "8080"
  const MatchPath: string := "/match"
  const ImagePath: string := "/image/"

  /**
   * `VITE_MEME_SERVER_PORT || 8080`: the environment value is a string or
   * undefined, and only undefined and the empty string are falsy.
   */
  function Port(env: Option<string>): (port: string)
    ensures port != []
    ensures env.Some? && env.value != [] ==> port == env.value
    ensures env.None? || env.value == [] ==> port == DefaultPort
  {
    if env.Some? && env.value != "" then env.value else DefaultPort
  }

  /** The base URL `http://localhost:${port}`. */
  function ServerUrl(env: Option<string>): string {
    Host + Port(env)
  }

  /** Reads the port back out of a base URL; `None` when the host part is not there. */
  function PortOf(url: string): Option<string> {
    if |Host| < |url| && url[..|Host|] == Host then Some(url[|Host|..]) else None
  }

  /** The base URL is the local host followed by exactly the chosen port. */
  lemma ServerUrlPort(env: Option<string>)
    ensures PortOf(ServerUrl(env)) == Some(Port(env))
    ensures env.None? ==> ServerUrl(env) == "http://localhost:8080"
  {
  }

  /** The endpoint the photo is posted to. */
  function MatchUrl(base: string): string {
    base + MatchPath
  }

  /** The URL of the matched image with the given id. */
  function ImageUrl(base: string, id: string): string {
    base + ImagePath + id
  }

  /** Reads the image id back out of an image URL on the given base. */
  function ImageId(base: string, url: string): Option<string> {
    var prefix := base + ImagePath;
    if |prefix| <= |url| && url[..|prefix|] == prefix then Some(url[|prefix|..]) else None
  }

  /** The id can be read back from the image URL built from it. */
  lemma ImageIdRoundTrip(base: string, id: string)
    ensures ImageId(base, ImageUrl(base, id)) == Some(id)
  {
  }

  /** Different matches are shown from different image URLs. */
  lemma ImageUrlInjective(base: string, id1: string, id2: string)
    ensures ImageUrl(base, id1) == ImageUrl(base, id2) <==> id1 == id2
  {
    ImageIdRoundTrip(base, id1);
    ImageIdRoundTrip(base, id2);
  }

  /** The match endpoint is never an image URL on the same base. */
  lemma MatchUrlIsNoImageUrl(base: string, id: string)
    ensures MatchUrl(base) != ImageUrl(base, id)
    ensures ImageId(base, MatchUrl(base)) == None
  {
  }
}
