/** The automaton: a trie of nodes, linked breadth first, and the streaming search over it. */
module AhoCorasick {
  import opened Bytes
  import opened Wrappers
  import opened AhoSpec
  import opened AhoBfs

  class Node {
    var children: seq<Node?>
    var suffixLink: Node?
    var terminalLink: Node?
    var wordLength: int

    /** The bytes on the way from the root. */
    ghost const path: Word

    constructor (ghost path: Word)
      ensures this.path == path && suffixLink == null && terminalLink == null && wordLength == -1
      ensures |children| == 256 && forall c | 0 <= c < 256 :: children[c] == null
    {
      this.path := path;
      children, suffixLink, terminalLink, wordLength := seq(256, _ => null), null, null, -1;
    }

    predicate IsTerminal()
      reads this
    {
      wordLength != -1
    }
  }

  /** The pointers of the node at p: one for each path one byte longer. */
  ghost predicate Kids(children: seq<Node?>, nodes: map<Word, Node>, p: Word) {
    && |children| == 256
    && forall c: Byte :: children[c] == if p + [c] in nodes then nodes[p + [c]] else null
  }

  ghost function Dictionary(ws: seq<Word>): set<Word> {
    set w | w in ws
  }

  class Automaton {
    const root: Node

    /** The trie's nodes by path, and the dictionary. */
    ghost var nodes: map<Word, Node>
    ghost var words: set<Word>

    ghost predicate NodeOk(p: Word)
      requires p in nodes
      reads this, nodes[p]
    {
      var n := nodes[p];
      && n.path == p && Kids(n.children, nodes, p)
      && n.wordLength == if p in words then |p| else -1
    }

    ghost predicate Trie()
      reads this, nodes.Values
    {
      && PrefixClosed(nodes.Keys) && nodes[[]] == root && words <= nodes.Keys
      && forall p | p in nodes :: NodeOk(p)
    }

    /** This is the node at its path. */
    ghost predicate Has(n: Node)
      reads this
    {
      n.path in nodes && nodes[n.path] == n
    }

    ghost function NodeAt(w: Option<Word>): Node?
      reads this
    {
      if w.Some? && w.value in nodes then nodes[w.value] else null
    }

    /** The suffix link of a node: its longest proper suffix that is a path. */
    ghost predicate SuffixOk(p: Word)
      requires p in nodes && [] in nodes
      reads this, nodes[p]
    {
      nodes[p].suffixLink == if p == [] then null else nodes[Link(nodes.Keys, p)]
    }

    /** The terminal link of a node: its longest proper suffix that is a word. */
    ghost predicate TerminalOk(p: Word)
      requires p in nodes
      reads this, nodes[p]
    {
      nodes[p].terminalLink == NodeAt(Terminal(words, p))
    }

    ghost predicate Valid()
      reads this, nodes.Values
    {
      && Trie()
      && forall p | p in nodes :: SuffixOk(p) && TerminalOk(p)
    }

    constructor ()
      ensures Trie() && nodes.Keys == Paths([]) && words == {} && fresh(nodes.Values)
      ensures root.suffixLink == null && root.terminalLink == null
    {
      var r := new Node([]);
      root := r;
      nodes, words := map[[] := r], {};
    }

    // ----- building the trie

    method AddChild(n: Node, c: Byte) returns (child: Node)
      requires Trie() && Has(n) && n.path + [c] !in nodes
      modifies this`nodes, n`children
      ensures Trie() && nodes == old(nodes)[n.path + [c] := child] && fresh(child)
      ensures child.suffixLink == null && child.terminalLink == null
    {
      hide PrefixClosed, Kids;
      ChildHere(n, c);
      child := new Node(n.path + [c]);
      n.children := n.children[c := child];
      ghost var before := nodes;
      nodes := nodes[n.path + [c] := child];
      ClosedMore(before.Keys, n.path, c);
      assert nodes.Keys == before.Keys + {n.path + [c]};
      forall p | p in nodes ensures NodeOk(p) {
        if p in before {
          assert old(NodeOk(p));
          KidsAfter(old(before[p].children), before, p, n.path, c, child);
        } else {
          KidsNew(child.children, before, n.path, c, child);
        }
      }
    }

    method MarkWord(n: Node, length: nat)
      requires Trie() && Has(n) && length == |n.path|
      modifies this`words, n`wordLength
      ensures Trie() && words == old(words) + {n.path}
    {
      hide PrefixClosed;
      n.wordLength := length;
      words := words + {n.path};
      forall p | p in nodes ensures NodeOk(p) {
        assert old(NodeOk(p));
      }
    }

    method GetOrAddChild(n: Node, c: Byte) returns (child: Node)
      requires Trie() && Has(n)
      modifies this`nodes, n`children
      ensures Trie() && Has(child) && child.path == n.path + [c] && nodes.Keys == old(nodes.Keys) + {child.path}
      ensures fresh(nodes.Values - old(nodes.Values)) && old(nodes.Values) <= nodes.Values
    {
      hide NodeOk, PrefixClosed;
      ChildHere(n, c);
      if n.children[c] == null {
        child := AddChild(n, c);
        Named(n.path + [c]);
        forall m | m in old(nodes.Values) ensures m in nodes.Values {
          var p :| p in old(nodes) && old(nodes)[p] == m;
          assert nodes[p] == m;
        }
      } else {
        child := n.children[c];
      }
    }

    /** Walk down the word, adding the nodes that are missing. */
    method MakePath(word: Word) returns (node: Node)
      requires Trie()
      modifies this`nodes, nodes.Values`children
      ensures Trie() && Has(node) && node.path == word && nodes.Keys == old(nodes.Keys) + Prefixes(word)
      ensures fresh(nodes.Values - old(nodes.Values))
    {
      hide NodeOk, PrefixClosed, Prefixes, Trie, Kids;
      node := root;
      var i := 0;
      StartPath();
      assert word[..0] == [];
      while i < |word|
        invariant i <= |word| && Trie() && Has(node) && node.path == word[..i]
        invariant nodes.Keys == old(nodes.Keys) + Prefixes(word[..i])
        invariant fresh(nodes.Values - old(nodes.Values))
      {
        PrefixesGrow(word, i);
        node := GetOrAddChild(node, word[i]);
        i := i + 1;
      }
      assert word[..i] == word;
    }

    method InsertWord(word: Word)
      requires Trie()
      modifies this`nodes, this`words, nodes.Values`children, nodes.Values`wordLength
      ensures Trie() && words == old(words) + {word} && nodes.Keys == old(nodes.Keys) + Prefixes(word)
      ensures fresh(nodes.Values - old(nodes.Values))
    {
      hide NodeOk, PrefixClosed, Prefixes, Trie, Kids;
      var node := MakePath(word);
      MarkWord(node, |word|);
    }

    lemma Named(p: Word)
      requires Trie() && p in nodes
      ensures nodes[p].path == p && Has(nodes[p])
    {
      assert NodeOk(p);
    }

    lemma StartPath()
      requires Trie()
      ensures Has(root) && root.path == [] && [] in nodes && nodes.Keys == nodes.Keys + Prefixes([])
    {
      assert NodeOk([]);
    }

    lemma ChildHere(n: Node, c: Byte)
      requires Trie() && Has(n)
      ensures |n.children| == 256 && (n.children[c] == null <==> n.path + [c] !in nodes)
      ensures n.children[c] != null ==> Has(n.children[c]) && n.children[c].path == n.path + [c]
    {
      assert NodeOk(n.path);
      if n.path + [c] in nodes {
        assert NodeOk(n.path + [c]);
      }
    }

    // ----- following suffix links

    /** Links are right down to some depth. */
    ghost predicate LinkedTo(depth: nat)
      reads this, nodes.Values
    {
      [] in nodes && forall p | p in nodes && |p| <= depth :: SuffixOk(p)
    }

    /** From a node, up the suffix links to one that has an edge for the byte, or to the root. */
    method FindFallback(start: Node, c: Byte) returns (f: Node, ghost steps: nat)
      requires Trie() && Has(start) && LinkedTo(|start.path|)
      ensures Has(f) && [] in nodes && steps == Hops(nodes.Keys, start.path, c) && steps + |f.path| <= |start.path|
      ensures f.path + [c] !in nodes ==> f == root && f.path == []
      ensures Longest(nodes.Keys, start.path + [c]) == if f.path + [c] in nodes then f.path + [c] else []
    {
      hide NodeOk, PrefixClosed, Longest;
      f, steps := start, 0;
      StartPath();
      ChildHere(f, c);
      while f != root && f.children[c] == null
        invariant Has(f) && steps + |f.path| <= |start.path| && |f.children| == 256
        invariant f.children[c] == null <==> f.path + [c] !in nodes
        invariant steps + Hops(nodes.Keys, f.path, c) == Hops(nodes.Keys, start.path, c)
        invariant Longest(nodes.Keys, start.path + [c]) == Longest(nodes.Keys, f.path + [c])
        decreases |f.path|
      {
        FallBack(nodes.Keys, f.path, c);
        Follow(f);
        f, steps := f.suffixLink, steps + 1;
        ChildHere(f, c);
      }
      FoundHere(f, c);
    }

    lemma Follow(f: Node)
      requires Trie() && Has(f) && f != root && LinkedTo(|f.path|)
      ensures f.path != [] && f.suffixLink != null && Has(f.suffixLink) && f.suffixLink.path == Link(nodes.Keys, f.path)
    {
      assert SuffixOk(f.path);
      assert NodeOk(Link(nodes.Keys, f.path));
    }

    lemma FoundHere(f: Node, c: Byte)
      requires Trie() && Has(f) && (f.path + [c] in nodes || f == root)
      ensures Longest(nodes.Keys, f.path + [c]) == if f.path + [c] in nodes then f.path + [c] else []
    {
      if f.path + [c] !in nodes {
        StartPath();
        FallBack(nodes.Keys, f.path, c);
      }
    }

    // ----- building the links, breadth first

    /** The queue holds the nodes at these paths. */
    ghost predicate Queued(queue: seq<Node>, qs: seq<Word>)
      reads this
    {
      |queue| == |qs| && forall i | 0 <= i < |queue| :: Has(queue[i]) && queue[i].path == qs[i]
    }

    /** Done nodes have both links, queued nodes their suffix link. */
    ghost predicate LinkedSoFar(qs: seq<Word>, done: set<Word>)
      reads this, nodes.Values
    {
      && [] in nodes
      && (forall q | q in nodes && q in done :: SuffixOk(q) && TerminalOk(q))
      && (forall q | q in nodes && q in qs :: SuffixOk(q))
    }

    /** What was followed so far, node by node. */
    ghost predicate Spent(qs: seq<Word>, done: set<Word>, cost: map<Word, nat>, steps: nat)
      reads this
    {
      && Paid(nodes.Keys, cost) && steps == SumOver(cost, cost.Keys)
      && forall q :: q in cost <==> q != [] && (q in done || q in qs)
    }

    ghost predicate Progress(queue: seq<Node>, qs: seq<Word>, done: set<Word>, cur: Word, upTo: nat,
                             cost: map<Word, nat>, steps: nat)
      reads this, nodes.Values
    {
      && Bfs(nodes.Keys, qs, done, cur, upTo) && Queued(queue, qs) && LinkedSoFar(qs, done)
      && Spent(qs, done, cost, steps)
    }

    lemma EnoughLinked(qs: seq<Word>, done: set<Word>, cur: Word, upTo: nat)
      requires Bfs(nodes.Keys, qs, done, cur, upTo) && LinkedSoFar(qs, done)
      ensures LinkedTo(|cur|)
    {
      forall p | p in nodes && |p| <= |cur| ensures SuffixOk(p) {
        Shallow(nodes.Keys, qs, done, cur, upTo, p);
      }
    }

    /** The next node leaves the queue, and its terminal link follows from its suffix link. */
    method SetTerminal(node: Node, ghost qs: seq<Word>, ghost done: set<Word>, ghost cur: Word)
      requires Trie() && qs != [] && Bfs(nodes.Keys, qs, done, cur, 256) && LinkedSoFar(qs, done)
      requires Has(node) && node.path == qs[0]
      modifies node`terminalLink
      ensures LinkedSoFar(qs[1..], done + {qs[0]}) && Trie()
    {
      hide Kids, PrefixClosed, Bfs, Terminal, Link;
      ghost var p := node.path;
      FromLink(qs, done, cur, node);
      if node.suffixLink.IsTerminal() {
        node.terminalLink := node.suffixLink;
      } else {
        node.terminalLink := node.suffixLink.terminalLink;
      }
      forall q | q in nodes ensures NodeOk(q) {
        assert old(NodeOk(q));
      }
      forall q | q in nodes && q in done + {p} ensures SuffixOk(q) && TerminalOk(q) {
        if q != p {
          assert old(SuffixOk(q)) && old(TerminalOk(q)) && NodeOk(q);
        }
      }
      assert forall q | q in qs[1..] :: q in qs;
    }

    /** The node at the other end of the suffix link is done, so its terminal link is right. */
    lemma FromLink(qs: seq<Word>, done: set<Word>, cur: Word, node: Node)
      requires Trie() && qs != [] && Bfs(nodes.Keys, qs, done, cur, 256) && LinkedSoFar(qs, done)
      requires Has(node) && node.path == qs[0]
      ensures node.path != [] && SuffixOk(node.path) && node.suffixLink != null
      ensures NodeAt(Terminal(words, node.path))
              == if node.suffixLink.IsTerminal() then node.suffixLink else node.suffixLink.terminalLink
    {
      hide PrefixClosed, Bfs, Terminal, Link, Kids;
      var p := node.path;
      BfsPop(nodes.Keys, qs, done, cur);
      StartPath();
      var f := Link(nodes.Keys, p);
      Shallow(nodes.Keys, qs[1..], done + {p}, p, 0, f);
      TerminalFromLink(words, nodes.Keys, p);
      assert SuffixOk(p) && TerminalOk(f) && NodeOk(f);
    }

    method LinkTo(child: Node, target: Node, ghost qs: seq<Word>, ghost done: set<Word>)
      requires Trie() && Has(child) && child.path != [] && child.path !in done && child.path !in qs
      requires Has(target) && target.path == Link(nodes.Keys, child.path) && LinkedSoFar(qs, done)
      modifies child`suffixLink
      ensures Trie() && LinkedSoFar(qs + [child.path], done)
    {
      hide Kids, PrefixClosed, Terminal, Link;
      child.suffixLink := target;
      forall q | q in nodes ensures NodeOk(q) {
        assert old(NodeOk(q));
      }
      forall q | q in nodes && (q in done || q in qs) ensures SuffixOk(q) && (q in done ==> TerminalOk(q)) {
        assert old(SuffixOk(q)) && (q in done ==> old(TerminalOk(q))) && NodeOk(q) && NodeOk(child.path);
      }
      assert NodeOk(child.path);
    }

    /** The suffix link of a child, found from the suffix link of its parent. */
    method LinkChild(node: Node, child: Node, c: Byte, ghost qs: seq<Word>, ghost done: set<Word>)
      returns (ghost steps: nat)
      requires Trie() && Has(node) && node.path != [] && Has(child) && child.path == node.path + [c]
      requires Bfs(nodes.Keys, qs, done, node.path, c) && LinkedSoFar(qs, done)
      modifies child`suffixLink
      ensures Trie() && LinkedSoFar(qs + [child.path], done)
      ensures steps == LinkHops(nodes.Keys, child.path)
      ensures steps + |Link(nodes.Keys, child.path)| <= |Link(nodes.Keys, node.path)| + 1
    {
      hide NodeOk, PrefixClosed, Terminal, Longest, SuffixOk, TerminalOk, Kids;
      BfsPush(nodes.Keys, qs, done, node.path, c);
      EnoughLinked(qs, done, node.path, c);
      StartPath();
      LinkOfChild(nodes.Keys, node.path, c);
      SuffixHere(node);
      var f;
      f, steps := FindFallback(node.suffixLink, c);
      ChildHere(f, c);
      var next := f.children[c];
      LinkTo(child, if next != null && next != child then next else root, qs, done);
    }

    lemma SuffixHere(node: Node)
      requires Trie() && Has(node) && node.path != [] && LinkedTo(|node.path|)
      ensures node.suffixLink != null && Has(node.suffixLink) && node.suffixLink.path == Link(nodes.Keys, node.path)
      ensures LinkedTo(|node.suffixLink.path|)
    {
      StartPath();
      Named(Link(nodes.Keys, node.path));
      assert SuffixOk(node.path);
    }

    lemma SpentMore(qs: seq<Word>, done: set<Word>, cost: map<Word, nat>, steps: nat, q: Word, n: nat)
      requires Spent(qs, done, cost, steps) && q != [] && q !in done && q !in qs
      requires n == LinkHops(nodes.Keys, q)
      requires n + |Link(nodes.Keys, q)| <= if |q| == 1 then 0 else |Link(nodes.Keys, Parent(q))| + 1
      ensures Spent(qs + [q], done, cost[q := n], steps + n)
    {
      hide Link;
      SumOverMore(cost, q, n);
      assert cost[q := n].Keys == cost.Keys + {q};
    }

    /** The root's children fall back to the root. */
    method ExpandRoot() returns (queue: seq<Node>, ghost qs: seq<Word>, ghost cost: map<Word, nat>)
      requires Trie() && root.suffixLink == null && root.terminalLink == null
      modifies (nodes.Values - {root})`suffixLink
      ensures Trie() && Progress(queue, qs, {[]}, [], 256, cost, 0)
    {
      hide NodeOk, PrefixClosed, Terminal, Longest, SuffixOk, TerminalOk, Bfs, Kids, Spent, LinkedSoFar;
      queue, qs, cost := [], [], map[];
      StartRoot();
      var c := 0;
      while c < 256
        invariant c <= 256 && Trie() && Progress(queue, qs, {[]}, [], c, cost, 0)
      {
        StartPath();
        ChildHere(root, c);
        var child := root.children[c];
        if child != null {
          BfsPush(nodes.Keys, qs, {[]}, [], c);
          LinkOfChild(nodes.Keys, [], c);
          LinkTo(child, root, qs, {[]});
          SpentMore(qs, {[]}, cost, 0, child.path, 0);
          queue, qs, cost := queue + [child], qs + [child.path], cost[child.path := 0];
        } else {
          BfsSkip(nodes.Keys, qs, {[]}, [], c);
        }
        c := c + 1;
      }
    }

    lemma StartRoot()
      requires Trie() && root.suffixLink == null && root.terminalLink == null
      ensures Progress([], [], {[]}, [], 0, map[], 0)
    {
      StartPath();
      BfsStart(nodes.Keys);
    }

    /** One node of the walk: its children are linked and queued. */
    method Expand(node: Node, queue0: seq<Node>, ghost qs0: seq<Word>, ghost done: set<Word>,
                  ghost cost0: map<Word, nat>, ghost steps0: nat)
      returns (queue: seq<Node>, ghost qs: seq<Word>, ghost cost: map<Word, nat>, ghost steps: nat)
      requires Trie() && Has(node) && node.path != [] && Progress(queue0, qs0, done, node.path, 0, cost0, steps0)
      modifies nodes.Values`suffixLink
      ensures Trie() && Progress(queue, qs, done, node.path, 256, cost, steps)
    {
      hide NodeOk, PrefixClosed, Terminal, Longest, SuffixOk, TerminalOk, Bfs, Kids, Spent, LinkedSoFar;
      queue, qs, cost, steps := queue0, qs0, cost0, steps0;
      var c := 0;
      while c < 256
        invariant c <= 256 && Trie() && Progress(queue, qs, done, node.path, c, cost, steps)
      {
        ChildHere(node, c);
        var child := node.children[c];
        if child != null {
          BfsPush(nodes.Keys, qs, done, node.path, c);
          ghost var n := LinkChild(node, child, c, qs, done);
          SpentMore(qs, done, cost, steps, child.path, n);
          queue, qs, cost, steps := queue + [child], qs + [child.path], cost[child.path := n], steps + n;
        } else {
          BfsSkip(nodes.Keys, qs, done, node.path, c);
        }
        c := c + 1;
      }
    }

    /** All links, breadth first. Links followed on the way never exceed the summed word lengths. */
    method BuildLinks(ghost ws: seq<Word>) returns (ghost steps: nat)
      requires Trie() && nodes.Keys == Paths(ws) && root.suffixLink == null && root.terminalLink == null
      modifies nodes.Values`suffixLink, nodes.Values`terminalLink
      ensures Valid() && steps == BuildHops(Paths(ws)) <= TotalLength(ws)
    {
      hide NodeOk, PrefixClosed, Terminal, Longest, SuffixOk, TerminalOk, Bfs, Kids, Spent, LinkedSoFar, Queued;
      var queue;
      ghost var qs, cost, done, cur := [], map[], {[]}, [];
      queue, qs, cost := ExpandRoot();
      steps := 0;
      while queue != []
        invariant Trie() && Progress(queue, qs, done, cur, 256, cost, steps)
        decreases |nodes.Keys - done|
      {
        var node := queue[0];
        ghost var before := done;
        QueuedPop(queue, qs);
        BfsPop(nodes.Keys, qs, done, cur);
        SpentPop(qs, done, cost, steps);
        SetTerminal(node, qs, done, cur);
        cur, done, qs, queue := node.path, done + {node.path}, qs[1..], queue[1..];
        queue, qs, cost, steps := Expand(node, queue, qs, done, cost, steps);
        Fewer(nodes.Keys, before, node.path);
      }
      Finished(qs, done, cur, cost, steps, ws);
    }

    lemma QueuedPop(queue: seq<Node>, qs: seq<Word>)
      requires Queued(queue, qs) && queue != []
      ensures qs != [] && Has(queue[0]) && queue[0].path == qs[0] && Queued(queue[1..], qs[1..])
    {
    }

    lemma SpentPop(qs: seq<Word>, done: set<Word>, cost: map<Word, nat>, steps: nat)
      requires Spent(qs, done, cost, steps) && qs != []
      ensures Spent(qs[1..], done + {qs[0]}, cost, steps)
    {
      assert forall q :: q in qs <==> q == qs[0] || q in qs[1..];
    }

    lemma Finished(qs: seq<Word>, done: set<Word>, cur: Word, cost: map<Word, nat>, steps: nat, ws: seq<Word>)
      requires Trie() && Progress([], qs, done, cur, 256, cost, steps) && nodes.Keys == Paths(ws)
      ensures Valid() && steps == BuildHops(Paths(ws)) <= TotalLength(ws)
    {
      hide NodeOk, PrefixClosed, Terminal, Longest, SuffixOk, TerminalOk, Kids, Paid;
      StartPath();
      forall p | p in nodes ensures p in done {
        AllDone(nodes.Keys, done, cur, p);
      }
      assert forall q :: q in cost <==> q != [] && q in nodes.Keys by {
        hide Paths;
      }
      assert Paths(ws) == cost.Keys + {[]};
      WholeCost(nodes.Keys, cost, ws);
    }

    /** The automaton for a dictionary. */
    static method Create(ws: seq<Word>) returns (a: Automaton, ghost steps: nat)
      ensures fresh(a) && fresh(a.nodes.Values) && a.Valid() && a.words == Dictionary(ws)
      ensures a.nodes.Keys == Paths(ws) && steps == BuildHops(Paths(ws)) <= TotalLength(ws)
    {
      hide Automaton.NodeOk, PrefixClosed, Paths, Automaton.Trie, Automaton.Valid, Dictionary, Prefixes, TotalLength;
      NoWordsYet(ws);
      a := new Automaton();
      var i := 0;
      while i < |ws|
        invariant i <= |ws| && fresh(a) && fresh(a.nodes.Values) && a.Trie() && a.words == Dictionary(ws[..i])
        invariant a.nodes.Keys == Paths(ws[..i]) && a.root.suffixLink == null && a.root.terminalLink == null
      {
        a.InsertWord(ws[i]);
        DictionaryGrows(ws, i);
        i := i + 1;
      }
      assert ws[..i] == ws;
      steps := a.BuildLinks(ws);
    }

    // ----- searching

    /** All matches in a text, and how many suffix links were followed: never more than there are bytes. */
    method Search(text: Word) returns (matches: seq<Match>, ghost steps: nat)
      requires Valid()
      ensures matches == AllMatches(words, text) && [] in nodes && steps == SearchHops(nodes.Keys, text) <= |text|
    {
      hide NodeOk, PrefixClosed, Longest, WordsEnding, SuffixOk, TerminalOk, Kids;
      matches, steps := [], 0;
      var node: Node := root;
      var i := 0;
      StartPath();
      assert text[..0] == [];
      while i < |text|
        invariant i <= |text| && Has(node) && node.path == Longest(nodes.Keys, text[..i])
        invariant matches == AllMatches(words, text[..i]) && steps + |node.path| <= i
        invariant steps == SearchHops(nodes.Keys, text[..i])
      {
        var c := text[i];
        ghost var n;
        assert text[..i + 1] == text[..i] + [c] && text[..i + 1][..i] == text[..i];
        node, n := Advance(node, c, text[..i]);
        steps := steps + n;
        var found := Report(node, text, i);
        matches := matches + found;
        i := i + 1;
      }
      assert text[..i] == text;
    }

    /** The state after one more byte. */
    method Advance(node: Node, c: Byte, ghost t: Word) returns (next: Node, ghost steps: nat)
      requires Valid() && Has(node) && node.path == Longest(nodes.Keys, t)
      ensures Has(next) && next.path == Longest(nodes.Keys, t + [c]) && steps + |next.path| <= |node.path| + 1
      ensures steps == Hops(nodes.Keys, node.path, c)
    {
      hide NodeOk, Longest, SuffixOk, TerminalOk, Kids;
      StartPath();
      LongestStep(nodes.Keys, t, c);
      next, steps := FindFallback(node, c);
      ChildHere(next, c);
      if next.children[c] != null {
        next := next.children[c];
      }
    }

    /** The words along the terminal links of a node, longest first. */
    method Report(node: Node, text: Word, i: nat) returns (found: seq<Match>)
      requires Valid() && i < |text| && Has(node) && node.path == Longest(nodes.Keys, text[..i + 1])
      ensures forall w | w in WordsEnding(words, text[..i + 1]) :: |w| <= i + 1
      ensures found == MatchesAt(WordsEnding(words, text[..i + 1]), i)
    {
      hide NodeOk, PrefixClosed, Longest, WordsEnding, SuffixOk, TerminalOk, Kids, Terminal, MatchesAt, Suffix, Onward,
           Valid, Trie, Has;
      ghost var all, seen: seq<Word> := WordsEnding(words, text[..i + 1]), [];
      AllEndHere(node, text[..i + 1]);
      found := [];
      NoMatches(i);
      var hit: Node? := node;
      while hit != null
        invariant hit != null ==> Has(hit)
        invariant all == seen + Onward(hit)
        invariant (forall w | w in seen :: |w| <= i + 1) && found == MatchesAt(seen, i)
        decreases if hit == null then 0 else |hit.path| + 1
      {
        var more;
        more, seen := ReportOne(hit, text, i, seen, all);
        found := found + more;
        hit := hit.terminalLink;
      }
      Ended();
      assert all == seen;
    }

    /** The word of one node, if it ends one. */
    method ReportOne(n: Node, text: Word, i: nat, ghost seen: seq<Word>, ghost all: seq<Word>)
      returns (found: seq<Match>, ghost seen': seq<Word>)
      requires Valid() && i < |text| && Has(n) && all == seen + Onward(n) && (forall w | w in seen :: |w| <= i + 1)
      requires forall w | w in all :: |w| <= i + 1 && Suffix(w, text[..i + 1])
      ensures n.terminalLink != null ==> Has(n.terminalLink) && |n.terminalLink.path| < |n.path|
      ensures all == seen' + Onward(n.terminalLink) && forall w | w in seen' :: |w| <= i + 1
      ensures n.path in words ==> |n.path| <= i + 1
      ensures found == if n.path in words then [Match(i + 1 - |n.path|, i, n.path)] else []
      ensures MatchesAt(seen', i) == MatchesAt(seen, i) + found
    {
      hide NodeOk, PrefixClosed, Longest, WordsEnding, SuffixOk, TerminalOk, Kids, Terminal, MatchesAt, Suffix, Onward,
           Valid;
      AlongTerminal(n);
      found, seen' := [], seen;
      if n.IsTerminal() {
        Shift(seen, n.path, Onward(n.terminalLink));
        OneMoreMatch(seen, n.path, text, i, all);
        var start := i + 1 - n.wordLength;
        found, seen' := [Match(start, i, text[start..start + n.wordLength])], seen + [n.path];
      }
    }

    /** The words on the way from a node along the terminal links. */
    ghost function Onward(n: Node?): seq<Word>
      reads this
    {
      if n == null then [] else WordsEnding(words, n.path)
    }

    lemma Ended()
      ensures Onward(null) == []
    {
    }

    lemma AllEndHere(n: Node, t: Word)
      requires Valid() && Has(n) && n.path == Longest(nodes.Keys, t)
      ensures Onward(n) == WordsEnding(words, t)
      ensures forall w | w in WordsEnding(words, t) :: |w| <= |t| && Suffix(w, t)
    {
      StartPath();
      WordsOfState(words, nodes.Keys, t);
      WordsEndingIsNaive(words, t);
    }

    /** The words from a node: its own, if it ends one, and those from its terminal link. */
    lemma AlongTerminal(n: Node)
      requires Valid() && Has(n)
      ensures n.IsTerminal() <==> n.path in words
      ensures n.IsTerminal() ==> n.wordLength == |n.path|
      ensures n.terminalLink != null ==> Has(n.terminalLink) && |n.terminalLink.path| < |n.path|
      ensures Onward(n) == if n.IsTerminal() then [n.path] + Onward(n.terminalLink) else Onward(n.terminalLink)
    {
      hide PrefixClosed, WordsEnding, Kids, SuffixOk;
      assert NodeOk(n.path) && TerminalOk(n.path);
      WordsFromNode(words, n.path);
      var w := Terminal(words, n.path);
      if w.Some? {
        Named(w.value);
      }
    }
  }

  lemma PrefixesGrow(w: Word, i: nat)
    requires i < |w|
    ensures w[..i + 1] == w[..i] + [w[i]] && Prefixes(w[..i + 1]) == Prefixes(w[..i]) + {w[..i + 1]}
  {
    assert w[..i + 1][..i] == w[..i];
  }

  lemma NoWordsYet(ws: seq<Word>)
    ensures Dictionary(ws[..0]) == {} && Paths(ws[..0]) == Paths([])
  {
    assert ws[..0] == [];
  }

  lemma DictionaryGrows(ws: seq<Word>, i: nat)
    requires i < |ws|
    ensures Dictionary(ws[..i + 1]) == Dictionary(ws[..i]) + {ws[i]}
    ensures Paths(ws[..i + 1]) == Paths(ws[..i]) + Prefixes(ws[i])
  {
    assert ws[..i + 1] == ws[..i] + [ws[i]] && ws[..i + 1][..i] == ws[..i];
  }

  lemma Fewer(paths: set<Word>, done: set<Word>, p: Word)
    requires p in paths && p !in done
    ensures |paths - (done + {p})| < |paths - done|
  {
    assert paths - done == (paths - (done + {p})) + {p};
  }

  lemma Shift(seen: seq<Word>, w: Word, rest: seq<Word>)
    ensures seen + ([w] + rest) == (seen + [w]) + rest
    ensures seen + [w] <= (seen + [w]) + rest
  {
  }

  lemma NoMatches(i: nat)
    ensures MatchesAt([], i) == []
  {
  }

  lemma OneMoreMatch(seen: seq<Word>, w: Word, text: Word, i: nat, all: seq<Word>)
    requires i < |text| && seen + [w] <= all && forall v | v in all :: |v| <= i + 1 && Suffix(v, text[..i + 1])
    ensures |w| <= i + 1 && text[i + 1 - |w|..i + 1 - |w| + |w|] == w && forall v | v in seen + [w] :: |v| <= i + 1
    ensures MatchesAt(seen + [w], i)
            == MatchesAt(seen, i) + [Match(i + 1 - |w|, i, text[i + 1 - |w|..i + 1 - |w| + |w|])]
  {
    AllInPrefix(seen + [w], all);
    assert (seen + [w])[|seen|] == w;
    SliceIsWord(w, text, i);
    MatchesConcat(seen, w, i);
  }

  lemma AllInPrefix(a: seq<Word>, all: seq<Word>)
    requires a <= all
    ensures forall v | v in a :: v in all
  {
  }

  lemma SliceIsWord(w: Word, text: Word, i: nat)
    requires i < |text| && Suffix(w, text[..i + 1])
    ensures text[i + 1 - |w|..i + 1 - |w| + |w|] == w
  {
  }

  lemma MatchesConcat(seen: seq<Word>, w: Word, i: nat)
    requires forall v | v in seen + [w] :: |v| <= i + 1
    ensures (forall v | v in seen :: |v| <= i + 1) && |w| <= i + 1
    ensures MatchesAt(seen + [w], i)
            == MatchesAt(seen, i) + [Match(i + 1 - |w|, i, w)]
  {
    assert (seen + [w])[|seen|] == w;
    forall v | v in seen ensures v in seen + [w] {
    }
    var a, b := MatchesAt(seen + [w], i), MatchesAt(seen, i) + [Match(i + 1 - |w|, i, w)];
    assert forall j | 0 <= j < |a| :: a[j] == b[j];
  }

  lemma KidsAfter(children: seq<Node?>, nodes: map<Word, Node>, p: Word, q: Word, c: Byte, child: Node)
    requires Kids(children, nodes, p)
    ensures |children| == 256
    ensures Kids(if p == q then children[c := child] else children, nodes[q + [c] := child], p)
  {
    forall d: Byte ensures p + [d] == q + [c] <==> p == q && d == c {
      LastByte(p, d, q, c);
    }
  }

  lemma KidsNew(children: seq<Node?>, nodes: map<Word, Node>, p: Word, c: Byte, child: Node)
    requires PrefixClosed(nodes.Keys) && p + [c] !in nodes && |children| == 256
    requires forall d | 0 <= d < 256 :: children[d] == null
    ensures Kids(children, nodes[p + [c] := child], p + [c])
  {
    var q := p + [c];
    forall d: Byte ensures q + [d] !in nodes && q + [d] != q {
      ParentOfChild(q, d);
      assert |q + [d]| == |q| + 1;
    }
  }
}
