/**
 * The extension-string scanner that render/egl.c (check_egl_ext) and
 * render/gles2/renderer.c (check_gl_ext) each carry, character for
 * character the same: walk the space-separated list and compare each
 * whole word with the wanted name.
 */
module Extensions {
  import opened Text

  /** `ext` is advertised in the space-separated list `exts`. */
  predicate Advertised(exts: string, ext: string)
  {
    ext in Tokens(exts, ' ')
  }

  /**
   * The scanning loop: skip a space, otherwise measure the word with
   * strcspn, compare it when its length equals the wanted length, and
   * step over it.
   */
  method CheckExt(exts: string, ext: string) returns (found: bool)
    ensures found <==> Advertised(exts, ext)
  {
    var i := 0;
    while i < |exts|
      invariant 0 <= i <= |exts|
      invariant Advertised(exts, ext) <==> Advertised(exts[i..], ext)
    {
      var rest := exts[i..];
      if exts[i] == ' ' {
        assert rest[1..] == exts[i + 1..];
        i := i + 1;
        continue;
      }
      var n := TokenLen(rest, ' ');
      assert Tokens(rest, ' ') == [rest[..n]] + Tokens(rest[n..], ' ');
      if n == |ext| && ext == exts[i..i + n] {
        assert rest[..n] == ext;
        return true;
      }
      assert rest[n..] == exts[i + n..];
      i := i + n;
    }
    return false;
  }

  /**
   * What a lookup answers, stated without tokens: the name is found exactly
   * when it occurs in the list with a space or an end of the list on each
   * side. The empty name and names containing a space are never found.
   */
  lemma WholeWordMatch(exts: string, ext: string)
    ensures |ext| > 0 && ' ' !in ext ==>
      (Advertised(exts, ext) <==> exists i :: BoundedAt(exts, ' ', ext, i))
    ensures |ext| == 0 || ' ' in ext ==> !Advertised(exts, ext)
  {
    if |ext| > 0 && ' ' !in ext {
      TokenIffBounded(exts, ' ', ext);
    }
  }

  /**
   * A proper prefix of an advertised name is not thereby advertised: in a
   * list holding only "EGL_EXT_image_dma_buf_import_modifiers", the name
   * "EGL_EXT_image_dma_buf_import" is not found.
   */
  lemma PrefixNotAdvertised(word: string, prefix: string)
    requires |word| > 0 && ' ' !in word
    requires |prefix| < |word| && word[..|prefix|] == prefix
    ensures !Advertised(word, prefix)
  {
    SingleToken(word, ' ');
  }
}
