/**
 * The pure builders of the `docker run` invocation: the image name with
 * its tag, the volume and working-directory flags, the flag that chooses
 * between `-t` and `--rm`, and the loopback port mapping.
 */
module LaunchArgs {
  import opened PyStr
  import Naming

  /** The defaults of `--image` and `--tag`. */
  const DefaultImage := "compdatasci/" + Naming.App + "-desktop"
  const DefaultTag := "latest"

  /**
   * The tag step of `parse_args`: a tag is appended only when the image has
   * none (no ':'); a tag already in the image prevails.
   */
  function NormaliseImage(image: string, tag: string): (r: string)
    ensures ':' in r
    ensures ':' in image ==> r == image
    ensures ':' !in image ==> r == image + ":" + tag
  {
    FindChar(image, ':');
    if Find(image, ":") < 0 then image + ":" + tag else image
  }

  /** Normalising twice, with any tag the second time, gives what normalising once did. */
  lemma NormaliseIdempotent(image: string, tag: string, tag2: string)
    ensures NormaliseImage(NormaliseImage(image, tag), tag2) == NormaliseImage(image, tag)
  {
  }

  /** The default image is run as `compdatasci/spyder-desktop:latest`. */
  lemma DefaultImageName()
    ensures NormaliseImage(DefaultImage, DefaultTag) == "compdatasci/spyder-desktop:latest"
  {
  }

  /**
   * The mount and working-directory flags: the current directory is always
   * mounted at `<home>/shared`; a named volume, when given, is mounted at
   * `<home>/project` and becomes the working directory, otherwise the
   * shared directory is.
   */
  function Volumes(pwd: string, dockerHome: string, volume: string): (args: seq<string>)
    ensures |args| >= 4 && |args| % 2 == 0
    ensures args[..2] == ["-v", pwd + ":" + dockerHome + "/shared"]
  {
    var volumes := ["-v", pwd + ":" + dockerHome + "/shared"];
    if volume != "" then
      volumes + ["-v", volume + ":" + dockerHome + "/project", "-w", dockerHome + "/project"]
    else
      volumes + ["-w", dockerHome + "/shared"]
  }

  /**
   * How the container engine reads a list of flag/value pairs: the values
   * given to `flag`, in order.
   */
  function FlagValues(args: seq<string>, flag: string): (values: seq<string>)
    ensures |values| <= |args| / 2
    decreases |args|
  {
    if |args| < 2 then []
    else (if args[0] == flag then [args[1]] else []) + FlagValues(args[2..], flag)
  }

  /** `host:target` mounts `target` inside the container. */
  predicate MountsAt(mount: string, target: string) {
    |mount| > |target| && mount[|mount| - |target| - 1..] == ":" + target
  }

  /**
   * Read back as the engine reads it, the volume flags mount the current
   * directory, then the named volume if any, and set exactly one working
   * directory, which is the target of one of those mounts; no other flag
   * is in the list.
   */
  lemma VolumesAsRead(pwd: string, dockerHome: string, volume: string)
    ensures var args := Volumes(pwd, dockerHome, volume);
      && FlagValues(args, "-v") ==
         [pwd + ":" + dockerHome + "/shared"] + (if volume != "" then [volume + ":" + dockerHome + "/project"] else [])
      && FlagValues(args, "-w") == [dockerHome + (if volume != "" then "/project" else "/shared")]
      && |args| == 2 * (|FlagValues(args, "-v")| + |FlagValues(args, "-w")|)
    ensures var args := Volumes(pwd, dockerHome, volume);
      exists k :: 0 <= k < |FlagValues(args, "-v")| && MountsAt(FlagValues(args, "-v")[k], FlagValues(args, "-w")[0])
  {
    var shared := pwd + ":" + dockerHome + "/shared";
    var project := volume + ":" + dockerHome + "/project";
    var args := Volumes(pwd, dockerHome, volume);
    var w := dockerHome + (if volume != "" then "/project" else "/shared");
    var tail: seq<string> := ["-w", w];
    FlagValuesPair("-w", w, [], "-v");
    FlagValuesPair("-w", w, [], "-w");
    if volume != "" {
      assert args == ["-v", shared] + (["-v", project] + tail);
      FlagValuesPair("-v", project, tail, "-v");
      FlagValuesPair("-v", project, tail, "-w");
      FlagValuesPair("-v", shared, ["-v", project] + tail, "-v");
      FlagValuesPair("-v", shared, ["-v", project] + tail, "-w");
      assert project[|project| - |w| - 1..] == ":" + w;
      assert MountsAt(FlagValues(args, "-v")[1], FlagValues(args, "-w")[0]);
    } else {
      assert args == ["-v", shared] + tail;
      FlagValuesPair("-v", shared, tail, "-v");
      FlagValuesPair("-v", shared, tail, "-w");
      assert shared[|shared| - |w| - 1..] == ":" + w;
      assert MountsAt(FlagValues(args, "-v")[0], FlagValues(args, "-w")[0]);
    }
  }

  /** One flag/value pair in front of the rest is read first. */
  lemma FlagValuesPair(flag: string, value: string, rest: seq<string>, wanted: string)
    ensures FlagValues([flag, value] + rest, wanted) ==
            (if flag == wanted then [value] else []) + FlagValues(rest, wanted)
  {
  }

  /** The banner `docker --version` prints for the 1.x releases. */
  const LegacyVersion := "Docker version 1."

  /**
   * The run flag chosen from the output of `docker --version`: `-t` for a
   * 1.x engine, `--rm` for any other.
   */
  function RmFlag(versionOutput: string): (flag: string)
    ensures flag == "-t" <==> exists i :: OccursAt(versionOutput, LegacyVersion, i)
    ensures flag == "-t" || flag == "--rm"
  {
    if Find(versionOutput, LegacyVersion) >= 0 then "-t" else "--rm"
  }

  /** A 1.x banner selects `-t`. */
  lemma RmFlagLegacy()
    ensures RmFlag("Docker version 1.13.1, build 092cba3\n") == "-t"
  {
  }

  /** The `-p` value: the HTTP port published on the loopback interface only, to the same port inside. */
  function PortMapping(portHttp: string): (mapping: string)
    ensures |mapping| == |"127.0.0.1"| + 2 * |portHttp| + 2
  {
    "127.0.0.1:" + portHttp + ":" + portHttp
  }

  /**
   * For `port_http = str(p)`, the mapping splits at ':' into the loopback
   * address and two copies of the port, each reading back as `p`.
   */
  lemma PortMappingAsRead(p: nat)
    ensures var parts := Split(PortMapping(Decimal(p)), ':');
      && |parts| == 3
      && parts[0] == "127.0.0.1"
      && IsDigits(parts[1]) && ParseDecimal(parts[1]) == p
      && parts[2] == parts[1]
  {
    var d := Decimal(p);
    assert ':' !in d by {
      forall k | 0 <= k < |d| ensures d[k] != ':' {
      }
    }
    assert ':' !in "127.0.0.1" by {
      forall k | 0 <= k < |"127.0.0.1"| ensures "127.0.0.1"[k] != ':' {
      }
    }
    assert PortMapping(d) == "127.0.0.1" + [':'] + (d + [':'] + d);
    SplitAfterPiece("127.0.0.1", ':', d + [':'] + d);
    SplitAfterPiece(d, ':', d);
    SplitWhole(d, ':');
    DecimalRoundTrip(p);
  }
}
