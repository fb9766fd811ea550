/**
 * `normalizeImageUrl` as both product components write it
 * (Frontend/src/components/ProductCard.jsx, Frontend/src/components/ProductDetail.jsx):
 * an absolute URL is upgraded from http to https, a relative path is resolved
 * against the deployed backend. The two components differ only in what they return
 * for a missing image, which each module states.
 */
module ImageUrls {
  import opened Text

  const BackendUrl: string := "https://hari-om-fashion.onrender.com"

  /** `/^http:\/\//i`: the first seven characters spell "http://" in any case. */
  predicate IsHttpUrl(s: string)
  {
    |s| >= 7 && Lower(s[..7]) == "http://"
  }

  /** The first eight characters spell "https://" in any case. */
  predicate IsHttpsUrl(s: string)
  {
    |s| >= 8 && Lower(s[..8]) == "https://"
  }

  /** `img.replace(/^\/+/, "")`: the path without its leading slashes. */
  function StripLeadingSlashes(s: string): (r: string)
    ensures r == [] || r[0] != '/'
    ensures |r| <= |s| && r == s[|s| - |r|..]
    ensures forall i :: 0 <= i < |s| - |r| ==> s[i] == '/'
    decreases |s|
  {
    if s != [] && s[0] == '/' then StripLeadingSlashes(s[1..]) else s
  }

  /** The URL of a non-empty image reference. */
  function Resolve(img: string): (url: string)
    ensures IsHttpsUrl(img) ==> url == img
  {
    if IsHttpUrl(img) then
      assert !IsHttpsUrl(img) by {
        if IsHttpsUrl(img) {
          HttpsIsNotHttp(img);
        }
      }
      "https://" + img[7..]
    else if IsHttpsUrl(img) then img
    else BackendUrl + "/" + StripLeadingSlashes(img)
  }

  lemma BackendUrlIsHttps()
    ensures IsHttpsUrl(BackendUrl) && !IsHttpUrl(BackendUrl)
  {
    assert BackendUrl[..8] == "https://";
    assert Lower(BackendUrl[..8]) == "https://";
    assert BackendUrl[..7][4] == 's';
    assert Lower(BackendUrl[..7])[4] == LowerChar('s') == 's';
    assert "http://"[4] == ':';
  }

  lemma {:induction false} HttpsPrefix(rest: string)
    ensures IsHttpsUrl("https://" + rest) && !IsHttpUrl("https://" + rest)
  {
    var s := "https://" + rest;
    assert s[..8] == "https://";
    assert Lower(s[..8]) == "https://";
    assert Lower(s[..7])[4] == 's';
    assert "http://"[4] == ':';
  }

  /** An https URL (any case) is never mistaken for an http one. */
  lemma HttpsIsNotHttp(s: string)
    requires IsHttpsUrl(s)
    ensures !IsHttpUrl(s)
  {
    assert Lower(s[..8])[4] == 's';
    assert s[..7][4] == s[..8][4];
  }

  /** Every resolved image is an https URL: plain http never reaches the page. */
  lemma ResolveIsHttps(img: string)
    ensures IsHttpsUrl(Resolve(img))
  {
    if IsHttpUrl(img) {
      HttpsPrefix(img[7..]);
    } else if !IsHttpsUrl(img) {
      var rest := "/" + StripLeadingSlashes(img);
      BackendUrlIsHttps();
      HttpsPrefixKept(BackendUrl, rest);
      assert BackendUrl + "/" + StripLeadingSlashes(img) == BackendUrl + rest;
    }
  }

  /** Appending to an https URL keeps it one. */
  lemma HttpsPrefixKept(a: string, b: string)
    requires IsHttpsUrl(a)
    ensures IsHttpsUrl(a + b)
  {
    assert (a + b)[..8] == a[..8];
  }

  /** Normalising twice gives what normalising once gives. */
  lemma ResolveIdempotent(img: string)
    ensures Resolve(Resolve(img)) == Resolve(img)
  {
    ResolveIsHttps(img);
    HttpsIsNotHttp(Resolve(img));
  }

  /** A relative path is the backend address, one slash, and the path without leading slashes. */
  lemma ResolveRelative(path: string)
    requires !IsHttpUrl(path) && !IsHttpsUrl(path)
    ensures Resolve(path) == BackendUrl + "/" + StripLeadingSlashes(path)
    ensures Resolve("/" + path) == Resolve(path)
  {
    var p := "/" + path;
    assert !IsHttpUrl(p) by {
      if |p| >= 7 {
        assert p[..7][0] == '/';
        assert Lower(p[..7])[0] == '/';
      }
    }
    assert !IsHttpsUrl(p) by {
      if |p| >= 8 {
        assert p[..8][0] == '/';
        assert Lower(p[..8])[0] == '/';
      }
    }
    assert p[1..] == path;
  }
}
