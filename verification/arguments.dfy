/**
 * The -c option, which turns CDDB querying on and names the server as
 * "hostname:port".
 */
module Arguments {
  import opened Text

  /** The longest option argument accepted (kiMaxStringLength). */
  const MaxArgumentLength: nat := 1024

  const MaxPort: nat := 65535

  /** The server named, or why the argument is refused: too long, no colon
      (a usage error), or a port outside 1 to 65535. */
  datatype ServerOption = Server(host: string, port: int) | TooLong | NoPort | BadPort(port: int)

  /**
   * The -c case of fnRetrieveArguments: the host is the text before the
   * first colon (strsep), the port the atoi value of the text after it.
   */
  function ParseServer(arg: string): (r: ServerOption)
    ensures r == TooLong <==> |arg| > MaxArgumentLength
    ensures r == NoPort <==> |arg| <= MaxArgumentLength && ':' !in arg
    ensures r.Server? ==> 1 <= r.port <= MaxPort && ':' !in r.host &&
                          StartsWith(arg, r.host + ":") && Atoi(arg[|r.host| + 1..]) == r.port
    ensures r.BadPort? ==> (r.port < 1 || r.port > MaxPort) && r.port == Atoi(arg[FirstIndexOf(arg, ':') + 1..])
  {
    if |arg| > MaxArgumentLength then TooLong
    else
      var k := FirstIndexOf(arg, ':');
      if k == |arg| then NoPort
      else
        var port := Atoi(arg[k + 1..]);
        if port < 1 || port > MaxPort then BadPort(port)
        else
          assert arg[..k + 1] == arg[..k] + ":";
          Server(arg[..k], port)
  }

  /** A host without a colon and a port in range, written "host:port",
      are read back. */
  lemma ParseServerRoundTrip(host: string, port: nat)
    requires ':' !in host && 1 <= port <= MaxPort
    requires |host| + 1 + |Decimal(port)| <= MaxArgumentLength
    ensures ParseServer(host + ":" + Decimal(port)) == Server(host, port)
  {
    var arg := host + ":" + Decimal(port);
    FirstIndexAfter(host, ':', Decimal(port));
    assert arg[|host| + 1..] == Decimal(port) + [];
    ScanDecimal(port, []);
    assert arg[..|host|] == host;
  }

  /** Anything after a second colon belongs to the port text, whose
      leading number alone counts. */
  lemma FirstColonSplits(host: string, rest: string)
    requires ':' !in host && |host| + 1 + |rest| <= MaxArgumentLength
    ensures var r := ParseServer(host + ":" + rest);
            (r.Server? || r.BadPort?) && r.port == Atoi(rest) &&
            (r.Server? ==> r.host == host)
  {
    var arg := host + ":" + rest;
    FirstIndexAfter(host, ':', rest);
    assert arg[|host| + 1..] == rest;
    assert arg[..|host|] == host;
  }
}
