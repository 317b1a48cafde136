/**
 Comparison of image identifiers across container engines
 (backend/app/container/docker_driver.py, _image_ids_match).
 */
module ImageIds {
  import opened Common

  /** The part of an identifier after its last colon; all of it when it has none. */
  function Digest(id: string): string {
    if id == "" then ""
    else if id[|id| - 1] == ':' then ""
    else Digest(id[..|id| - 1]) + [id[|id| - 1]]
  }

  /** A missing or empty identifier never matches, not even itself. */
  predicate Match(a: Option<string>, b: Option<string>) {
    && a.Some? && b.Some?
    && a.value != "" && b.value != ""
    && Digest(a.value) == Digest(b.value)
  }

  lemma {:induction false} DigestOfPlain(h: string)
    requires ':' !in h
    ensures Digest(h) == h
  {
    if h != "" {
      DigestOfPlain(h[..|h| - 1]);
      assert h == h[..|h| - 1] + [h[|h| - 1]];
    }
  }

  lemma {:induction false} DigestAfterColon(prefix: string, h: string)
    requires ':' !in h
    ensures Digest(prefix + ":" + h) == h
  {
    var id := prefix + ":" + h;
    if h != "" {
      var init := h[..|h| - 1];
      assert h == init + [h[|h| - 1]];
      assert id[..|id| - 1] == prefix + ":" + init;
      DigestAfterColon(prefix, init);
    }
  }

  /** An identifier is an engine prefix, a colon and a digest, or a bare digest. */
  lemma {:induction false} DigestSplits(id: string)
    ensures ':' !in Digest(id)
    ensures Digest(id) == id || exists prefix :: id == prefix + ":" + Digest(id)
  {
    if id == "" {
    } else if id[|id| - 1] == ':' {
      assert id == id[..|id| - 1] + ":" + Digest(id);
    } else {
      var init := id[..|id| - 1];
      DigestSplits(init);
      assert id == init + [id[|id| - 1]];
      if Digest(init) != init {
        var prefix :| init == prefix + ":" + Digest(init);
        assert id == prefix + ":" + Digest(id);
      }
    }
  }

  /** Whatever prefixes two engines put in front, identifiers match exactly when the digests agree. */
  lemma MatchIgnoresEnginePrefix(p: string, q: string, g: string, h: string)
    requires ':' !in g && ':' !in h
    ensures Match(Some(p + ":" + g), Some(q + ":" + h)) <==> g == h
    ensures g != "" && h != "" ==> (Match(Some(p + ":" + g), Some(h)) <==> g == h)
  {
    DigestAfterColon(p, g);
    DigestAfterColon(q, h);
    DigestOfPlain(h);
  }
}
