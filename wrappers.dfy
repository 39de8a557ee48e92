/** Optional values, used where the Java code keeps a nullable reference or index. */
module Wrappers {

  datatype Option<+T> = None | Some(value: T)
}
