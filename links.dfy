/** The text `url_link` shows for a URL: the object key, without the S3 host and bucket. */
module Links {
  import opened Text

  const S3Host: string := "https://s3.amazonaws.com/"

  /**
   * The start of the pattern `^https:\/\/s3.amazonaws.com\/`: its two
   * unescaped dots match any character but a newline.
   */
  predicate HostMatches(url: string) {
    && |url| >= |S3Host|
    && (forall i :: 0 <= i < |S3Host| && i != 10 && i != 20 ==> url[i] == S3Host[i])
    && url[10] != '\n' && url[20] != '\n'
  }

  /**
   * `re.sub(r'^https:\/\/s3.amazonaws.com\/[^\/]+\/', '', url)`: when the URL
   * starts with the host and a non-empty bucket followed by '/', drop them;
   * otherwise the URL is shown unchanged.
   */
  function UrlText(url: string): (r: string)
    ensures |r| <= |url| && url[|url| - |r|..] == r
    ensures r != url ==> HostMatches(url)
  {
    if !HostMatches(url) then url
    else
      var rest := url[|S3Host|..];
      var j := IndexOf(rest, '/');
      if j == 0 || j == |rest| then url
      else
        assert url[|url| - |rest[j + 1..]|..] == rest[j + 1..];
        rest[j + 1..]
  }

  /** For an S3 URL of a bucket and a path, the text shown is the path. */
  lemma UrlTextOfS3Url(bucket: string, path: string)
    requires bucket != "" && '/' !in bucket
    ensures UrlText(S3Host + bucket + "/" + path) == path
  {
    var url := S3Host + bucket + "/" + path;
    assert HostMatches(url) by {
      assert forall i :: 0 <= i < |S3Host| ==> url[i] == S3Host[i];
      assert url[10] == '.' && url[20] == '.';
    }
    var rest := url[|S3Host|..];
    assert rest == bucket + "/" + path;
    assert IndexOf(rest, '/') == |bucket| by {
      assert rest[|bucket|] == '/';
      assert forall j :: 0 <= j < |bucket| ==> rest[j] == bucket[j];
    }
    assert rest[|bucket| + 1..] == path;
  }

  /** A URL whose bucket segment is empty is shown unchanged. */
  lemma EmptyBucketUnchanged(path: string)
    ensures UrlText(S3Host + "/" + path) == S3Host + "/" + path
  {
    var url := S3Host + "/" + path;
    assert url[|S3Host|..][0] == '/';
  }
}
