/** Serving static files (WebStaticFile): which file a request path names
    and which content type the response carries. */
module WebStaticFile {
  import opened JavaLang

  /** Configuration values by key (io.baratine.config.Config). */
  type Config = map<string, string>

  /** `config.get(key, default)`. */
  function ConfigGet(config: Config, key: string, default: string): (r: string)
    ensures key in config ==> r == config[key]
    ensures key !in config ==> r == default
  {
    if key in config then config[key] else default
  }

  const INDEX_KEY := "server.index"
  const INDEX_DEFAULT := "index.html"
  const ROOT_KEY := "server.file"
  const ROOT_DEFAULT := "classpath:/public"

  /** The encoding mimeType names for its text types. */
  const ENC := "utf-8"
  const CHARSET := "; charset=" + ENC

  /** A text type with the encoding appended, as `type + "; charset=" + enc`. */
  function WithCharset(t: string): (r: string)
    ensures EndsWith(r, CHARSET)
  {
    assert (t + CHARSET)[|t|..] == CHARSET;
    t + CHARSET
  }

  const TEXT_PLAIN := WithCharset("text/plain")

  /** The extensions the `switch` in mimeType names. */
  predicate Listed(ext: string)
  {
    ext == ".html" || ext == ".css" || ext == ".js" || ext == ".png"
    || ext == ".pdf" || ext == ".gif" || ext == ".jpg"
  }

  /** The `switch` on the extension: a listed extension's type, else text/plain. */
  function SwitchType(ext: string): (r: string)
    ensures r == TEXT_PLAIN <==> !Listed(ext)
  {
    if ext == ".html" then WithCharset("text/html")
    else if ext == ".css" then WithCharset("text/css")
    else if ext == ".js" then WithCharset("application/javascript")
    else if ext == ".png" then "image/png"
    else if ext == ".pdf" then "application/pdf"
    else if ext == ".gif" then "image/gif"
    else if ext == ".jpg" then "image/jpeg"
    else TEXT_PLAIN
  }

  /** The root directory files are served from (init). */
  function RootPath(config: Config): (r: string)
    ensures ROOT_KEY !in config ==> r == "classpath:/public"
  {
    ConfigGet(config, ROOT_KEY, ROOT_DEFAULT)
  }

  /**
   * The path handle serves: "" and "/" stand for the configured index
   * file, "/index.html" unless configured otherwise; every other path is
   * served as given.
   */
  function IndexPath(pathInfo: string, config: Config): (r: string)
    ensures pathInfo != "" && pathInfo != "/" ==> r == pathInfo
    ensures pathInfo == "" || pathInfo == "/" ==>
              r == "/" + ConfigGet(config, INDEX_KEY, INDEX_DEFAULT)
    ensures (pathInfo == "" || pathInfo == "/") && INDEX_KEY !in config ==> r == "/index.html"
  {
    if pathInfo == "" || pathInfo == "/" then "/" + ConfigGet(config, INDEX_KEY, INDEX_DEFAULT)
    else pathInfo
  }

  /** Defaulting is idempotent once the index name is not empty. */
  lemma IndexPathIdempotent(pathInfo: string, config: Config)
    requires ConfigGet(config, INDEX_KEY, INDEX_DEFAULT) != ""
    ensures IndexPath(IndexPath(pathInfo, config), config) == IndexPath(pathInfo, config)
  {
    var r := IndexPath(pathInfo, config);
    if pathInfo == "" || pathInfo == "/" {
      assert |r| >= 2;
    }
  }

  /**
   * mimeType: the content type for the extension after the last '.', as the
   * table lists it; text/plain (utf-8) for a path without '.' and for any
   * extension the table does not list (matching is case-sensitive).
   */
  function MimeType(pathInfo: string): (r: string)
    ensures r == TEXT_PLAIN <==>
              LastIndexOfChar(pathInfo, '.') < 0 || !Listed(pathInfo[LastIndexOfChar(pathInfo, '.')..])
  {
    var p := LastIndexOfChar(pathInfo, '.');
    if p < 0 then TEXT_PLAIN else SwitchType(pathInfo[p..])
  }

  /** An extension whose only '.' is its first character. */
  predicate IsExtension(ext: string)
  {
    |ext| > 0 && ext[0] == '.' && '.' !in ext[1..]
  }

  /** The type follows the last extension of the path, whatever comes before it. */
  lemma MimeTypeOfExtension(stem: string, ext: string)
    requires IsExtension(ext)
    ensures MimeType(stem + ext) == SwitchType(ext)
  {
    var s := stem + ext;
    var p := LastIndexOfChar(s, '.');
    assert s[|stem|] == '.';
    forall k | |stem| < k < |s|
      ensures s[k] != '.'
    {
      assert s[k] == ext[1..][k - |stem| - 1];
    }
    assert p == |stem|;
    assert s[p..] == ext;
  }

  /** The text types carry "; charset=utf-8"; the image and PDF types do not. */
  lemma CharsetOnlyOnText(ext: string)
    requires Listed(ext)
    ensures ext == ".html" || ext == ".css" || ext == ".js" <==> EndsWith(SwitchType(ext), "; charset=utf-8")
  {
    if ext == ".pdf" {
      assert SwitchType(ext)[0] != CHARSET[0];
    }
  }

  predicate EndsWith(s: string, suffix: string)
  {
    |suffix| <= |s| && s[|s| - |suffix|..] == suffix
  }

  /** Case variants of a listed extension are not listed: ".HTML" is plain text. */
  lemma UpperCaseExtensionIsPlain(stem: string)
    ensures MimeType(stem + ".HTML") == TEXT_PLAIN
  {
    MimeTypeOfExtension(stem, ".HTML");
  }
}
