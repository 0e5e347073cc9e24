/** The plugin's main file: the class autoloader, and the activation and deactivation
    hooks that write the `.htaccess` marker and wipe the cache. */
module Bootstrap {
  import opened Php
  import opened Store

  /** The namespace prefix the autoloader answers for, backslash included. */
  const Namespace: string := "VMC_Simple_Cache\\"

  /** Text of the marker that denies direct access to the cache directory. */
  const MarkerText: string := "Order deny,allow\nDeny from all"

  predicate HasPrefix(s: string, prefix: string) {
    |prefix| <= |s| && s[..|prefix|] == prefix
  }

  /** The class name with `_` turned into `-` and ASCII upper case lowered;
      namespace separators are left as they are. */
  function FoldedName(relative: string): (m: string)
    ensures |m| == |relative|
    ensures forall i :: 0 <= i < |m| ==> m[i] != '_' && !('A' <= m[i] <= 'Z')
    ensures forall i :: 0 <= i < |m| && relative[i] == '\\' ==> m[i] == '\\'
    ensures forall i :: 0 <= i < |m| && relative[i] != '_' && !('A' <= relative[i] <= 'Z') ==> m[i] == relative[i]
  {
    ToLower(ReplaceChar(relative, '_', '-'))
  }

  function ClassFileName(relative: string): string {
    "class-" + FoldedName(relative) + ".php"
  }

  /** The path the autoloader builds, or nothing for a class outside the namespace. */
  function ClassFile(pluginDir: string, className: string): (r: Option<string>)
    ensures r.Some? <==> HasPrefix(className, Namespace)
    ensures r.Some? ==>
      r.value == pluginDir + "includes/" + ClassFileName(className[|Namespace|..])
  {
    if HasPrefix(className, Namespace)
    then Some(pluginDir + "includes/" + ClassFileName(className[|Namespace|..]))
    else None
  }

  /** The file the autoloader requires for `className`, given the files that exist. */
  method Autoload(pluginDir: string, className: string, existing: set<string>)
    returns (required: Option<string>)
    ensures required.Some? <==> HasPrefix(className, Namespace) && ClassFile(pluginDir, className).value in existing
    ensures required.Some? ==> required == ClassFile(pluginDir, className)
  {
    if !HasPrefix(className, Namespace) {
      return None;
    }
    var file := pluginDir + "includes/" + ClassFileName(className[|Namespace|..]);
    if file in existing {
      required := Some(file);
    } else {
      required := None;
    }
  }

  /** A folded name can be checked character by character. */
  lemma FoldedNameIs(relative: string, expected: string)
    requires |relative| == |expected|
    requires forall i :: 0 <= i < |relative| ==>
      expected[i] == LowerChar(if relative[i] == '_' then '-' else relative[i])
    ensures FoldedName(relative) == expected
  {
  }

  /** The class file of a name inside the namespace, given its folded form. */
  lemma ClassFileOf(pluginDir: string, relative: string, folded: string)
    requires FoldedName(relative) == folded
    ensures ClassFile(pluginDir, Namespace + relative) ==
      Some(pluginDir + ("includes/class-" + folded + ".php"))
  {
    assert (Namespace + relative)[..|Namespace|] == Namespace;
    assert (Namespace + relative)[|Namespace|..] == relative;
    assert pluginDir + "includes/" + ("class-" + folded + ".php")
        == pluginDir + ("includes/class-" + folded + ".php");
  }

  /** The file a class inside the namespace resolves to, given its folded form, with
      the folding checked character by character. */
  lemma KnownClassFile(pluginDir: string, relative: string, folded: string, path: string)
    requires |relative| == |folded|
    requires forall i :: 0 <= i < |relative| ==>
      folded[i] == LowerChar(if relative[i] == '_' then '-' else relative[i])
    requires path == "includes/class-" + folded + ".php"
    ensures ClassFile(pluginDir, Namespace + relative) == Some(pluginDir + path)
  {
    FoldedNameIs(relative, folded);
    ClassFileOf(pluginDir, relative, folded);
  }

  /** The plugin's own classes resolve to the files they live in. */
  lemma KnownClassFiles(pluginDir: string)
    ensures ClassFile(pluginDir, Namespace + "Cache_Manager") == Some(pluginDir + "includes/class-cache-manager.php")
    ensures ClassFile(pluginDir, Namespace + "Post_Cache") == Some(pluginDir + "includes/class-post-cache.php")
    ensures ClassFile(pluginDir, Namespace + "Admin") == Some(pluginDir + "includes/class-admin.php")
  {
    KnownClassFile(pluginDir, "Cache_Manager", "cache-manager", "includes/class-cache-manager.php");
    KnownClassFile(pluginDir, "Post_Cache", "post-cache", "includes/class-post-cache.php");
    KnownClassFile(pluginDir, "Admin", "admin", "includes/class-admin.php");
  }

  /** The directory after activation: the marker is added only when absent. */
  function Activated(files: Files): Files {
    if Marker in files then files else files[Marker := Raw(MarkerText)]
  }

  /** Activation leaves a marker and never overwrites one; deactivation's wipe keeps
      it, so activating, deactivating and activating again needs no new marker. */
  lemma MarkerLifecycle(files: Files)
    ensures Marker in Activated(files)
    ensures Marker in files ==> Activated(files) == files
    ensures Activated(Activated(files)) == Activated(files)
    ensures Marker in Cleared(Activated(files))
    ensures Cleared(Activated(files))[Marker] == Activated(files)[Marker]
    ensures Activated(Cleared(Activated(files))) == Cleared(Activated(files))
  {
  }

  method Activate(dir: CacheDir)
    modifies dir
    ensures dir.files == Activated(old(dir.files))
  {
    if Marker !in dir.files {
      dir.files := dir.files[Marker := Raw(MarkerText)];
    }
  }

  /** Deactivation builds a fresh manager over the directory and clears it. */
  method Deactivate(dir: CacheDir)
    modifies dir
    ensures dir.files == Cleared(old(dir.files))
  {
    var manager := new CacheManager(dir);
    var _ := manager.ClearCache();
  }
}
