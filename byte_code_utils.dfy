/**
 * ByteCodeUtils.getMethod: from a stack frame (class, method name, line) to the reflected
 * method that frame is executing. The stack frame carries no parameter types, so overloads
 * are told apart by reading the descriptor of the method whose line-number table holds the
 * frame's line out of the class file, then picking the public method with that name and
 * descriptor.
 */
module ByteCodeUtils {
  import opened Wrappers
  import opened Reflection

  /** The distinct ways `getMethod` fails. */
  datatype ResolveError =
    | ClassNotFound(className: ClassName)   // Class.forName cannot load the frame's class
    | ClassFileMissing(resource: string)    // the class-file resource cannot be opened
    | LineNotFound(line: int)               // no method of that name has the frame's line
    | MethodNotFound                        // no public method has that name and descriptor

  // ---------------------------------------------------------------------------------------
  // The class-file resource name
  // ---------------------------------------------------------------------------------------

  /** `s` with every occurrence of `from` replaced by `to`. */
  function ReplaceChar(s: string, from: char, to: char): (r: string)
    ensures |r| == |s|
    ensures forall i :: 0 <= i < |s| ==> r[i] == if s[i] == from then to else s[i]
  {
    if s == [] then [] else [if s[0] == from then to else s[0]] + ReplaceChar(s[1..], from, to)
  }

  const ClassFileSuffix: string := ".class"

  /** The absolute resource name of the class file of `className`. */
  function ResourceName(className: ClassName): (r: string)
    ensures |r| == |className| + 7
    ensures r[0] == '/' && r[|r| - 6..] == ClassFileSuffix
    ensures forall i :: 0 <= i < |className| ==>
              r[i + 1] == if className[i] == '.' then '/' else className[i]
  {
    "/" + ReplaceChar(className, '.', '/') + ClassFileSuffix
  }

  /** The class whose class file a resource name designates, if it has that shape. */
  function ClassNameOf(resource: string): Option<ClassName>
  {
    if |resource| >= 7 && resource[0] == '/' && resource[|resource| - 6..] == ClassFileSuffix
    then Some(ReplaceChar(resource[1..|resource| - 6], '/', '.'))
    else None
  }

  /** Reading the class name back out of its resource name gives the class name again. */
  lemma ResourceNameRoundTrip(className: ClassName)
    requires '/' !in className
    ensures ClassNameOf(ResourceName(className)) == Some(className)
  {
    var r := ResourceName(className);
    var back := ReplaceChar(r[1..|r| - 6], '/', '.');
    assert |back| == |className|;
    forall i | 0 <= i < |className| ensures back[i] == className[i] {
      assert r[1..|r| - 6][i] == r[i + 1];
      assert className[i] != '/';
    }
    assert back == className;
  }

  /** Distinct class names have distinct class-file resources. */
  lemma ResourceNameInjective(c1: ClassName, c2: ClassName)
    requires '/' !in c1 && '/' !in c2
    ensures ResourceName(c1) == ResourceName(c2) ==> c1 == c2
  {
    ResourceNameRoundTrip(c1);
    ResourceNameRoundTrip(c2);
  }

  // ---------------------------------------------------------------------------------------
  // The descriptor scan over the class file
  // ---------------------------------------------------------------------------------------

  /** `info` is a method called `name` whose line-number table holds `line`. */
  predicate HasLine(info: MethodInfo, name: string, line: int) {
    info.name == name && line in info.lines
  }

  /**
   * The descriptor the scan leaves behind after visiting `methods` in order: every matching
   * line entry overwrites it, so it is that of the last method that has the line.
   */
  function LastDescriptor(methods: seq<MethodInfo>, name: string, line: int): Option<Descriptor> {
    if methods == [] then None
    else if HasLine(methods[|methods| - 1], name, line) then Some(methods[|methods| - 1].descriptor)
    else LastDescriptor(methods[..|methods| - 1], name, line)
  }

  /**
   * The scan finds a descriptor exactly when some method called `name` has the line, and then
   * it is the descriptor of such a method with no later one.
   */
  lemma {:induction false} LastDescriptorIsLastHit(methods: seq<MethodInfo>, name: string, line: int)
    ensures LastDescriptor(methods, name, line).None? <==>
              forall i :: 0 <= i < |methods| ==> !HasLine(methods[i], name, line)
    ensures LastDescriptor(methods, name, line).Some? ==>
              exists i :: 0 <= i < |methods| && HasLine(methods[i], name, line)
                && methods[i].descriptor == LastDescriptor(methods, name, line).value
                && forall j :: i < j < |methods| ==> !HasLine(methods[j], name, line)
  {
    if methods != [] {
      var n := |methods| - 1;
      var front := methods[..n];
      LastDescriptorIsLastHit(front, name, line);
      assert forall i :: 0 <= i < n ==> front[i] == methods[i];
      if !HasLine(methods[n], name, line) && LastDescriptor(front, name, line).Some? {
        var i :| 0 <= i < n && HasLine(front[i], name, line)
          && front[i].descriptor == LastDescriptor(front, name, line).value
          && forall j :: i < j < n ==> !HasLine(front[j], name, line);
        assert methods[i] == front[i];
      }
    }
  }

  /** Visits the line-number table of `info`, overwriting `desc` at each entry equal to `line`. */
  method VisitLineNumbers(info: MethodInfo, line: int, desc: Option<Descriptor>) returns (r: Option<Descriptor>)
    ensures r == if line in info.lines then Some(info.descriptor) else desc
  {
    r := desc;
    var j := 0;
    while j < |info.lines|
      invariant 0 <= j <= |info.lines|
      invariant r == if line in info.lines[..j] then Some(info.descriptor) else desc
    {
      assert info.lines[..j + 1] == info.lines[..j] + [info.lines[j]];
      if info.lines[j] == line {
        r := Some(info.descriptor);
      }
      j := j + 1;
    }
    assert info.lines[..j] == info.lines;
  }

  /**
   * Visits the methods of a class file in order; only the methods called `name` have their
   * line-number tables visited.
   */
  method ScanDescriptor(methods: seq<MethodInfo>, name: string, line: int) returns (desc: Option<Descriptor>)
    ensures desc == LastDescriptor(methods, name, line)
  {
    desc := None;
    var i := 0;
    while i < |methods|
      invariant 0 <= i <= |methods|
      invariant desc == LastDescriptor(methods[..i], name, line)
    {
      assert methods[..i + 1][..i] == methods[..i];
      if methods[i].name == name {
        desc := VisitLineNumbers(methods[i], line, desc);
      }
      i := i + 1;
    }
    assert methods[..i] == methods;
  }

  // ---------------------------------------------------------------------------------------
  // The search over the public methods
  // ---------------------------------------------------------------------------------------

  /** `m` has the frame's method name and the descriptor the scan found. */
  predicate IsCaller(m: MethodId, name: string, desc: Descriptor) {
    m.name == name && m.descriptor == desc
  }

  /** The first method of `methods` that has `name` and `desc`, if any. */
  function FirstMatch(methods: seq<MethodId>, name: string, desc: Descriptor): Option<MethodId> {
    if methods == [] then None
    else if IsCaller(methods[0], name, desc) then Some(methods[0])
    else FirstMatch(methods[1..], name, desc)
  }

  /**
   * The search finds nothing exactly when no method has both the name and the descriptor;
   * otherwise it finds the first method, in `getMethods()` order, that has both.
   */
  lemma {:induction false} FirstMatchIsFirstHit(methods: seq<MethodId>, name: string, desc: Descriptor)
    ensures FirstMatch(methods, name, desc).None? <==>
              forall i :: 0 <= i < |methods| ==> !IsCaller(methods[i], name, desc)
    ensures FirstMatch(methods, name, desc).Some? ==>
              exists i :: 0 <= i < |methods| && methods[i] == FirstMatch(methods, name, desc).value
                && IsCaller(methods[i], name, desc)
                && forall j :: 0 <= j < i ==> !IsCaller(methods[j], name, desc)
  {
    if methods != [] && !IsCaller(methods[0], name, desc) {
      var rest := methods[1..];
      FirstMatchIsFirstHit(rest, name, desc);
      assert forall i :: 0 <= i < |rest| ==> rest[i] == methods[i + 1];
      if FirstMatch(rest, name, desc).Some? {
        var i :| 0 <= i < |rest| && rest[i] == FirstMatch(rest, name, desc).value
          && IsCaller(rest[i], name, desc)
          && forall j :: 0 <= j < i ==> !IsCaller(rest[j], name, desc);
        assert methods[i + 1] == rest[i];
        assert forall j :: 0 <= j < i + 1 ==> !IsCaller(methods[j], name, desc) by {
          forall j | 0 <= j < i + 1 ensures !IsCaller(methods[j], name, desc) {
            if j > 0 { assert methods[j] == rest[j - 1]; }
          }
        }
      } else {
        forall i | 0 <= i < |methods| ensures !IsCaller(methods[i], name, desc) {
          if i > 0 { assert methods[i] == rest[i - 1]; }
        }
      }
    }
  }

  /** The loop over `getMethods()` that returns on the first method with the name and descriptor. */
  method FindMethod(methods: seq<MethodId>, name: string, desc: Descriptor) returns (r: Option<MethodId>)
    ensures r == FirstMatch(methods, name, desc)
  {
    var i := 0;
    while i < |methods|
      invariant 0 <= i <= |methods|
      invariant FirstMatch(methods, name, desc) == FirstMatch(methods[i..], name, desc)
    {
      assert methods[i..][1..] == methods[i + 1..];
      if name == methods[i].name && desc == methods[i].descriptor {
        return Some(methods[i]);
      }
      i := i + 1;
    }
    r := None;
  }

  // ---------------------------------------------------------------------------------------
  // getMethod
  // ---------------------------------------------------------------------------------------

  /** What `getMethod` yields for `frame`: the method it returns, or why it throws. */
  function Resolve(frame: StackFrame, jvm: Jvm): Result<MethodId, ResolveError> {
    if frame.className !in jvm.publicMethods then Failure(ClassNotFound(frame.className))
    else
      var resource := ResourceName(frame.className);
      if resource !in jvm.classFiles then Failure(ClassFileMissing(resource))
      else
        match LastDescriptor(jvm.classFiles[resource], frame.methodName, frame.lineNumber)
        case None => Failure(LineNotFound(frame.lineNumber))
        case Some(desc) =>
          match FirstMatch(jvm.publicMethods[frame.className], frame.methodName, desc)
          case None => Failure(MethodNotFound)
          case Some(m) => Success(m)
  }

  /** Resolves the method a stack frame is executing. */
  method GetMethod(frame: StackFrame, jvm: Jvm) returns (r: Result<MethodId, ResolveError>)
    ensures r == Resolve(frame, jvm)
  {
    if frame.className !in jvm.publicMethods {
      return Failure(ClassNotFound(frame.className));
    }
    var resource := ResourceName(frame.className);
    if resource !in jvm.classFiles {
      return Failure(ClassFileMissing(resource));
    }
    var desc := ScanDescriptor(jvm.classFiles[resource], frame.methodName, frame.lineNumber);
    if desc.None? {
      return Failure(LineNotFound(frame.lineNumber));
    }
    var found := FindMethod(jvm.publicMethods[frame.className], frame.methodName, desc.value);
    if found.None? {
      return Failure(MethodNotFound);
    }
    r := Success(found.value);
  }

  /**
   * A resolved method is a public method of the frame's class with the frame's method name,
   * and its descriptor is that of the last class-file method of that name whose line table
   * holds the frame's line; no earlier public method has both that name and that descriptor.
   */
  lemma ResolvedMethodMatchesFrame(frame: StackFrame, jvm: Jvm)
    requires Resolve(frame, jvm).Success?
    ensures var m := Resolve(frame, jvm).value;
      && frame.className in jvm.publicMethods
      && ResourceName(frame.className) in jvm.classFiles
      && m.name == frame.methodName
      && (exists i :: 0 <= i < |jvm.publicMethods[frame.className]|
            && jvm.publicMethods[frame.className][i] == m
            && forall j :: 0 <= j < i ==> !IsCaller(jvm.publicMethods[frame.className][j], m.name, m.descriptor))
      && var file := jvm.classFiles[ResourceName(frame.className)];
         exists k :: 0 <= k < |file| && HasLine(file[k], frame.methodName, frame.lineNumber)
           && file[k].descriptor == m.descriptor
           && forall j :: k < j < |file| ==> !HasLine(file[j], frame.methodName, frame.lineNumber)
  {
    var file := jvm.classFiles[ResourceName(frame.className)];
    LastDescriptorIsLastHit(file, frame.methodName, frame.lineNumber);
    var desc := LastDescriptor(file, frame.methodName, frame.lineNumber).value;
    FirstMatchIsFirstHit(jvm.publicMethods[frame.className], frame.methodName, desc);
  }

  /**
   * The failures, each in terms of the inputs: the class cannot be loaded; its class file is
   * missing; no method of the frame's name has the frame's line; or no public method has
   * both the name and the descriptor found.
   */
  lemma ResolveFailures(frame: StackFrame, jvm: Jvm)
    ensures Resolve(frame, jvm).Failure? && Resolve(frame, jvm).error.ClassNotFound? <==>
              frame.className !in jvm.publicMethods
    ensures Resolve(frame, jvm) == Failure(ClassFileMissing(ResourceName(frame.className))) <==>
              frame.className in jvm.publicMethods && ResourceName(frame.className) !in jvm.classFiles
    ensures Resolve(frame, jvm) == Failure(LineNotFound(frame.lineNumber)) <==>
              && frame.className in jvm.publicMethods
              && ResourceName(frame.className) in jvm.classFiles
              && forall i :: 0 <= i < |jvm.classFiles[ResourceName(frame.className)]| ==>
                   !HasLine(jvm.classFiles[ResourceName(frame.className)][i], frame.methodName, frame.lineNumber)
    ensures Resolve(frame, jvm) == Failure(MethodNotFound) <==>
              && frame.className in jvm.publicMethods
              && ResourceName(frame.className) in jvm.classFiles
              && var desc := LastDescriptor(jvm.classFiles[ResourceName(frame.className)], frame.methodName, frame.lineNumber);
                 && desc.Some?
                 && forall i :: 0 <= i < |jvm.publicMethods[frame.className]| ==>
                      !IsCaller(jvm.publicMethods[frame.className][i], frame.methodName, desc.value)
  {
    if frame.className in jvm.publicMethods && ResourceName(frame.className) in jvm.classFiles {
      var file := jvm.classFiles[ResourceName(frame.className)];
      LastDescriptorIsLastHit(file, frame.methodName, frame.lineNumber);
      var desc := LastDescriptor(file, frame.methodName, frame.lineNumber);
      if desc.Some? {
        FirstMatchIsFirstHit(jvm.publicMethods[frame.className], frame.methodName, desc.value);
      }
    }
  }

  /**
   * Overloads are told apart: two frames of one class whose lines lie in methods with different
   * descriptors never resolve to the same method.
   */
  lemma OverloadsResolveApart(f1: StackFrame, f2: StackFrame, jvm: Jvm)
    requires f1.className == f2.className
    requires Resolve(f1, jvm).Success? && Resolve(f2, jvm).Success?
    requires var file := jvm.classFiles[ResourceName(f1.className)];
      LastDescriptor(file, f1.methodName, f1.lineNumber) != LastDescriptor(file, f2.methodName, f2.lineNumber)
    ensures Resolve(f1, jvm).value != Resolve(f2, jvm).value
  {
    var file := jvm.classFiles[ResourceName(f1.className)];
    var methods := jvm.publicMethods[f1.className];
    var d1 := LastDescriptor(file, f1.methodName, f1.lineNumber).value;
    var d2 := LastDescriptor(file, f2.methodName, f2.lineNumber).value;
    FirstMatchIsFirstHit(methods, f1.methodName, d1);
    FirstMatchIsFirstHit(methods, f2.methodName, d2);
  }
  /**
   * Two overloads `find(String)` and `find(int)` of one class, listed by `getMethods()` in the
   * opposite order to the class file: a frame at a line of each resolves to that overload.
   */
  lemma OverloadedFramesResolveToTheirOwnOverload()
    ensures var byString := MethodId("app.A", "find", "(Ljava/lang/String;)I", "int");
      var byInt := MethodId("app.A", "find", "(I)I", "int");
      var jvm := Jvm(
        map["app.A" := [byInt, byString]],
        map["/app/A.class" := [MethodInfo("find", "(Ljava/lang/String;)I", [10, 11]), MethodInfo("find", "(I)I", [20, 21])]]);
      && Resolve(StackFrame("app.A", "find", 11), jvm) == Success(byString)
      && Resolve(StackFrame("app.A", "find", 21), jvm) == Success(byInt)
      && Resolve(StackFrame("app.A", "find", 15), jvm) == Failure(LineNotFound(15))
  {
    var byString := MethodId("app.A", "find", "(Ljava/lang/String;)I", "int");
    var byInt := MethodId("app.A", "find", "(I)I", "int");
    var file := [MethodInfo("find", "(Ljava/lang/String;)I", [10, 11]), MethodInfo("find", "(I)I", [20, 21])];
    assert ResourceName("app.A") == "/app/A.class";
    assert file[..1] == [file[0]] && file[..1][..0] == [];
    assert LastDescriptor(file, "find", 11) == Some("(Ljava/lang/String;)I");
    assert LastDescriptor(file, "find", 21) == Some("(I)I");
    assert LastDescriptor(file, "find", 15) == None;
    assert [byInt, byString][1..] == [byString];
    assert FirstMatch([byInt, byString], "find", "(Ljava/lang/String;)I") == Some(byString);
  }
}
