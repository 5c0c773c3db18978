/**
 * The mock conversation generator of `src/utils/generateMockMessage.ts`:
 * `messageCount` messages alternating between six sample questions and their
 * six answers, each tagged with its 1-based number.  `Date.now()` is the
 * parameter `clock`, read once per message.
 */
module MockMessages {
  import opened Wrappers
  import opened Decimal
  import opened ChatTypes

  /** The sample texts the generator cycles through: questions and their answers, paired by position. */
  datatype SampleTable = SampleTable(userQueries: seq<string>, assistantResponses: seq<string>)

  /** `sampleUserQueries` and `sampleAssistantResponses`. */
  const Samples: SampleTable := SampleTable(
    [
    "你好，我想用 Vue 3 写一个组件。",
    "好的，我想实现一个简单的计数器按钮组件，包含一个显示数字的区域和一个点击后数字会增加的按钮。",
    "代码看起来不错，能给我加上 TypeScript 类型定义吗？",
    "非常清晰！现在如果我想给这个组件加上一个重置功能，应该怎么做？",
    "太棒了，谢谢你！",
    "最后一个问题，如何通过 props 来给计数器设置一个初始值？"
  ],
    [
    "当然！很乐意帮助你。你想用 Vue 3 实现一个什么样的组件呢？可以具体描述一下它的功能和外观吗？",
    @"没问题，这是一个非常好的入门练习。你可以使用 Vue 3 的 Composition API 来实现。这是一个基本的实现：

```vue
<template>
  <div class=""counter"">
    <p>Count: {{ count }}</p>
    <button @click=""increment"">Increment</button>
  </div>
</template>

<script setup>
import { ref } from 'vue';

const count = ref(0);

const increment = () => {
  count.value++;
};
</script>

<style scoped>
.counter {
  padding: 1rem;
  border: 1px solid #ccc;
  border-radius: 8px;
  text-align: center;
}
button {
  margin-left: 1rem;
}
</style>
```

这个组件使用了 `<script setup>` 语法，这是目前 Vue 3 最推荐的写法。它内部定义了一个响应式变量 `count`，以及一个修改它的 `increment` 方法。",
    @"当然可以。为 `<script setup>` 添加 TypeScript 支持非常简单，只需要给 `<script>` 标签加上 `lang=""ts""` 属性即可。同时我们可以为变量和函数添加类型注解，让代码更健壮：

```vue
<template>
  </template>

<script setup lang=""ts"">
import { ref } from 'vue';
import type { Ref } from 'vue';

const count: Ref<number> = ref(0);

const increment = (): void => {
  count.value++;
};
</script>

<style scoped>
/* style 部分保持不变 */
</style>
```

这里我使用了 Vue 提供的 `Ref` 类型来注解 `ref` 创建的响应式引用。",
    @"添加重置功能也很简单。我们只需要再定义一个 `reset` 函数，将 `count` 的值恢复为 0，然后在模板中添加一个重置按钮即可。

```vue
<template>
  <div class=""counter"">
    <p>Count: {{ count }}</p>
    <button @click=""increment"">Increment</button>
    <button @click=""reset"">Reset</button> </div>
</template>

<script setup lang=""ts"">
import { ref } from 'vue';
import type { Ref } from 'vue';

const count: Ref<number> = ref(0);

const increment = (): void => {
  count.value++;
};

// 新增 reset 函数
const reset = (): void => {
  count.value = 0;
};
</script>
```
",
    "不客气！很高兴能帮到你。如果你在开发过程中有任何其他问题，随时可以再来问我。祝你编码愉快！",
    @"通过 props 设置初始值是组件封装的关键一步。我们可以使用 `defineProps` 来定义组件接收的 props。

```vue
<template>
  </template>

<script setup lang=""ts"">
import { ref } from 'vue';
import type { Ref } from 'vue';

// 1. 定义 props
const props = defineProps<{
  initialValue?: number; // ? 表示这是一个可选的 prop
}>();

// 2. 使用 props 的值来初始化 count
const count: Ref<number> = ref(props.initialValue || 0);

// increment 和 reset 函数保持不变
const increment = (): void => {
  count.value++;
};

const reset = (): void => {
  count.value = props.initialValue || 0; // 重置时也回到初始值
};
</script>
```

这样，你在使用这个组件的时候就可以像这样传递一个初始值了：`<Counter :initialValue=""10"" />`。"
  ])

  const DefaultMessageCount: int := 200

  /** Even positions are questions, odd positions answers. */
  function RoleAt(i: nat): Role
  {
    if i % 2 == 0 then User else Assistant
  }

  /** The sample text of position `i`: question or answer number `floor(i / 2)`, cycling through the table. */
  function SampleAt(t: SampleTable, i: nat): string
    requires |t.userQueries| > 0 && |t.assistantResponses| > 0
  {
    if RoleAt(i) == User then t.userQueries[(i / 2) % |t.userQueries|]
    else t.assistantResponses[(i / 2) % |t.assistantResponses|]
  }

  /** The per-message tag ` (消息 #<n>)`. */
  function Tag(n: nat): string
  {
    " (消息 #" + NatToString(n) + ")"
  }

  function ContentAt(t: SampleTable, i: nat): string
    requires |t.userQueries| > 0 && |t.assistantResponses| > 0
  {
    SampleAt(t, i) + Tag(i + 1)
  }

  /**
   * `generateMockMessages(messageCount)`: exactly `messageCount` messages (none
   * for a count of zero or less); message `i` has the role, sample text and tag
   * of position `i`, the clock reading taken for it, and no reasoning or token
   * count.
   */
  method GenerateMockMessages(clock: nat -> int, messageCount: int := DefaultMessageCount, samples: SampleTable := Samples)
    returns (messages: seq<Message>)
    requires |samples.userQueries| > 0 && |samples.assistantResponses| > 0
    ensures |messages| == if messageCount > 0 then messageCount else 0
    ensures forall i :: 0 <= i < |messages| ==>
      messages[i] == Message(clock(i), RoleAt(i), ContentAt(samples, i), None, None)
  {
    messages := [];
    var i := 0;
    while i < messageCount
      invariant 0 <= i <= (if messageCount > 0 then messageCount else 0) && |messages| == i
      invariant forall k :: 0 <= k < i ==> messages[k] == Message(clock(k), RoleAt(k), ContentAt(samples, k), None, None)
    {
      var role := if i % 2 == 0 then User else Assistant;
      var content := if role == User
        then samples.userQueries[(i / 2) % |samples.userQueries|]
        else samples.assistantResponses[(i / 2) % |samples.assistantResponses|];
      messages := messages + [Message(clock(i), role, content + " (消息 #" + NatToString(i + 1) + ")", None, None)];
      i := i + 1;
    }
  }

  /**
   * Messages `2k` and `2k + 1` are a question and its own answer: both are
   * drawn from sample `k mod 6`.
   */
  lemma QuestionAnswerPairs(t: SampleTable, k: nat)
    requires |t.userQueries| == |t.assistantResponses| > 0
    ensures RoleAt(2 * k) == User && RoleAt(2 * k + 1) == Assistant
    ensures SampleAt(t, 2 * k) == t.userQueries[k % |t.userQueries|]
    ensures SampleAt(t, 2 * k + 1) == t.assistantResponses[k % |t.userQueries|]
  {
    assert (2 * k) / 2 == k && (2 * k + 1) / 2 == k;
  }

  /** The tag determines the number: two texts ending in different tags differ. */
  lemma {:induction false} TagDetermines(b1: string, n1: nat, b2: string, n2: nat)
    requires b1 + Tag(n1) == b2 + Tag(n2)
    ensures n1 == n2
  {
    var s := b1 + Tag(n1);
    var d1, d2 := NatToString(n1), NatToString(n2);
    assert s == b1 + " (消息 #" + d1 + ")";
    assert s == b2 + " (消息 #" + d2 + ")";
    // the character just before the digits of each tag is '#', and digits never are
    var p1, p2 := |s| - 2 - |d1|, |s| - 2 - |d2|;
    assert s[p1] == '#' && s[p2] == '#';
    assert forall q :: p1 < q < |s| - 1 ==> s[q] == d1[q - p1 - 1];
    assert forall q :: p2 < q < |s| - 1 ==> s[q] == d2[q - p2 - 1];
    assert |d1| == |d2| by {
      assert !IsDigit('#');
    }
    assert d1 == s[p1 + 1..|s| - 1] == d2;
    NatToStringInjective(n1, n2);
  }

  /** The tags make every generated text different from every other. */
  lemma ContentsDistinct(t: SampleTable, i: nat, j: nat)
    requires |t.userQueries| > 0 && |t.assistantResponses| > 0
    requires i != j
    ensures ContentAt(t, i) != ContentAt(t, j)
  {
    if ContentAt(t, i) == ContentAt(t, j) {
      TagDetermines(SampleAt(t, i), i + 1, SampleAt(t, j), j + 1);
    }
  }
}
