/**
 * The two entries of Streamlit's session state that the login flow uses:
 * `mode` and `username`. A missing entry is None.
 */
module SessionState {
  import opened Wrappers

  /** The values `st.session_state['mode']` takes: 'login', 'register' and 'app'. */
  datatype Mode = Login | Register | App

  class Session {
    var mode: Option<Mode>
    var username: Option<string>

    /** A fresh browser session holds neither entry. */
    constructor ()
      ensures mode == None && username == None
    {
      mode := None;
      username := None;
    }
  }
}
