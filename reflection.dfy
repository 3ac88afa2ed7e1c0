/**
 * The pieces of the running JVM that the method cacher reads: reflected methods, stack frames,
 * and what a parsed class file says about each of its methods.
 */
module Reflection {

  /** A binary class name as a stack frame reports it, e.g. "com.acme.Service". */
  type ClassName = string

  /** A JVM method descriptor, e.g. "(Ljava/lang/String;)I". */
  type Descriptor = string

  /**
   * A `java.lang.reflect.Method`. Two methods are the same method exactly when all four
   * components agree; `descriptor` is what `Type.getMethodDescriptor` computes for it.
   */
  datatype MethodId = MethodId(
    declaringClass: ClassName,
    name: string,
    descriptor: Descriptor,
    returnType: ClassName)

  /** A `java.lang.StackTraceElement`, reduced to the three parts the resolver reads. */
  datatype StackFrame = StackFrame(className: ClassName, methodName: string, lineNumber: int)

  /**
   * One method of a class file as the bytecode reader visits it: its name, its descriptor and
   * the line numbers of its line-number table, in visiting order.
   */
  datatype MethodInfo = MethodInfo(name: string, descriptor: Descriptor, lines: seq<int>)

  /**
   * What the JVM answers about classes. `publicMethods` has an entry for every class that
   * `Class.forName` can load, holding what `getMethods()` returns for it, in that order;
   * `classFiles` maps each class-file resource name that can be opened to the methods of
   * that class file, in file order.
   */
  datatype Jvm = Jvm(publicMethods: map<ClassName, seq<MethodId>>, classFiles: map<string, seq<MethodInfo>>)
}
